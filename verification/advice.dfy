/** The advice generator: the sentence under the comparison table, built from the three
    solved-problem counts and the contest attendance of both sides. */
module Advice {
  import opened Model

  /** The problem difficulties the advice talks about, in the order it lists them. */
  datatype Category = Easy | Medium | Hard

  /** How a category is written in the advice. */
  function Label(c: Category): (name: string) {
    match c
    case Easy => "easy"
    case Medium => "medium"
    case Hard => "hard"
  }

  /** The place of a category in the easy, medium, hard order. */
  function Position(c: Category): (position: nat) {
    match c
    case Easy => 0
    case Medium => 1
    case Hard => 2
  }

  /** The number of problems of category `c` a person has solved. */
  function Solved(p: ProfileMetrics, c: Category): (solved: int) {
    match c
    case Easy => p.solvedEasy
    case Medium => p.solvedMedium
    case Hard => p.solvedHard
  }

  /** The categories in which I have solved strictly fewer problems than the competitor,
      in easy, medium, hard order. */
  function LessSolvedCategories(result: ComparisonResult): (less: seq<Category>)
    ensures forall c :: c in less <==> Solved(result.myProfile, c) < Solved(result.competitorProfile, c)
    ensures forall i, j :: 0 <= i < j < |less| ==> Position(less[i]) < Position(less[j])
    ensures |less| <= 3
  {
    var myProfile := result.myProfile;
    var competitorProfile := result.competitorProfile;
    (if myProfile.solvedEasy < competitorProfile.solvedEasy then [Easy] else [])
    + (if myProfile.solvedMedium < competitorProfile.solvedMedium then [Medium] else [])
    + (if myProfile.solvedHard < competitorProfile.solvedHard then [Hard] else [])
  }

  /** I have attended strictly fewer contests than the competitor. */
  predicate AttendanceBehind(result: ComparisonResult) {
    result.myProfile.contestAttend < result.competitorProfile.contestAttend
  }

  /** The labels of a list of categories. */
  function Labels(cs: seq<Category>): (labels: seq<string>) {
    seq(|cs|, i requires 0 <= i < |cs| => Label(cs[i]))
  }

  /** English list of any length with a serial (Oxford) comma: "a", "a and b",
      "a, b, and c", "a, b, c, and d", ... */
  function SerialList(items: seq<string>): (list: string) {
    if |items| == 0 then ""
    else if |items| == 1 then items[0]
    else if |items| == 2 then items[0] + " and " + items[1]
    else SerialTail(items)
  }

  /** The comma-separated form of a list of two or more items, "and" before the last. */
  function SerialTail(items: seq<string>): (tail: string)
    requires |items| >= 2
  {
    if |items| == 2 then items[0] + ", and " + items[1]
    else items[0] + ", " + SerialTail(items[1..])
  }

  /** The serial-comma list of one, two or three items, written out. */
  lemma SerialListUpToThree(items: seq<string>)
    ensures |items| == 1 ==> SerialList(items) == items[0]
    ensures |items| == 2 ==> SerialList(items) == items[0] + " and " + items[1]
    ensures |items| == 3 ==> SerialList(items) == items[0] + ", " + items[1] + ", and " + items[2]
  {
    if |items| == 3 {
      assert SerialTail(items[1..]) == items[1] + ", and " + items[2];
    }
  }

  /** Cutting the full stop off "Give more contests." and appending " and f" lets the
      focus suffix continue the sentence. */
  lemma GiveMoreContestsAndFocus(list: string)
    ensures var contests := "Give more contests.";
      contests[..|contests| - 1] + " and f" + ("ocus more on " + list + " problems.")
        == "Give more contests and focus more on " + list + " problems."
  {
  }

  /** The capital "F" and the focus suffix make one sentence. */
  lemma FocusCapital(list: string)
    ensures "F" + ("ocus more on " + list + " problems.") == "Focus more on " + list + " problems."
  {
  }

  /** The tail of the advice as `interpretation` appends it: "ocus more on <list> problems."
      for one to three categories, nothing otherwise. It agrees with the serial-comma
      list of the category labels. */
  function FocusSuffix(less: seq<Category>): (suffix: string)
    ensures |less| == 0 ==> suffix == ""
    ensures 1 <= |less| <= 3 ==> suffix == "ocus more on " + SerialList(Labels(less)) + " problems."
  {
    SerialListUpToThree(Labels(less));
    if |less| == 3 then
      "ocus more on " + Label(less[0]) + ", " + Label(less[1]) + ", and " + Label(less[2]) + " problems."
    else if |less| == 2 then
      "ocus more on " + Label(less[0]) + " and " + Label(less[1]) + " problems."
    else if |less| == 1 then
      "ocus more on " + Label(less[0]) + " problems."
    else
      ""
  }

  /** The `interpretation` closure, step by step as popup.js builds the text: a
      default sentence, replaced by "Give more contests." when attendance is behind, cut
      before its full stop and extended with " and f" when categories follow, or set to
      "F" when only categories follow, and finally extended with the focus suffix. */
  function Interpretation(result: ComparisonResult): (text: string)
    ensures var less := LessSolvedCategories(result);
      less == [] && !AttendanceBehind(result) ==> text == "You are good in all aspects."
    ensures var less := LessSolvedCategories(result);
      less == [] && AttendanceBehind(result) ==> text == "Give more contests."
    ensures var less := LessSolvedCategories(result);
      less != [] && AttendanceBehind(result) ==>
        text == "Give more contests and focus more on " + SerialList(Labels(less)) + " problems."
    ensures var less := LessSolvedCategories(result);
      less != [] && !AttendanceBehind(result) ==>
        text == "Focus more on " + SerialList(Labels(less)) + " problems."
  {
    var less := LessSolvedCategories(result);
    var initial := "You are good in all aspects.";
    var flag := AttendanceBehind(result);
    var contests := "Give more contests.";
    var afterContests :=
      if flag then
        if |less| != 0 then contests[..|contests| - 1] + " and f" else contests
      else initial;
    var beforeFocus := if |less| != 0 && !flag then "F" else afterContests;
    GiveMoreContestsAndFocus(SerialList(Labels(less)));
    FocusCapital(SerialList(Labels(less)));
    beforeFocus + FocusSuffix(less)
  }

  /** The advice reads only the three solved counts and the contest attendance of
      each side: rank, acceptance rate, rating, global ranking, top percentage and the
      calendar never change it. */
  lemma AdviceDependsOnlyOnSolvedAndAttendance(r1: ComparisonResult, r2: ComparisonResult)
    requires forall c :: Solved(r1.myProfile, c) == Solved(r2.myProfile, c)
    requires forall c :: Solved(r1.competitorProfile, c) == Solved(r2.competitorProfile, c)
    requires r1.myProfile.contestAttend == r2.myProfile.contestAttend
    requires r1.competitorProfile.contestAttend == r2.competitorProfile.contestAttend
    ensures Interpretation(r1) == Interpretation(r2)
  {
    assert Solved(r1.myProfile, Easy) == Solved(r2.myProfile, Easy);
    assert Solved(r1.myProfile, Medium) == Solved(r2.myProfile, Medium);
    assert Solved(r1.myProfile, Hard) == Solved(r2.myProfile, Hard);
    assert Solved(r1.competitorProfile, Easy) == Solved(r2.competitorProfile, Easy);
    assert Solved(r1.competitorProfile, Medium) == Solved(r2.competitorProfile, Medium);
    assert Solved(r1.competitorProfile, Hard) == Solved(r2.competitorProfile, Hard);
  }

  /** The praise is given exactly when I am behind in no category and not behind in
      contest attendance. */
  lemma AllGoodIff(result: ComparisonResult)
    ensures Interpretation(result) == "You are good in all aspects." <==>
      && (forall c :: Solved(result.myProfile, c) >= Solved(result.competitorProfile, c))
      && !AttendanceBehind(result)
  {
    var less := LessSolvedCategories(result);
    var text := Interpretation(result);
    if less != [] {
      assert Solved(result.myProfile, less[0]) < Solved(result.competitorProfile, less[0]);
      if AttendanceBehind(result) {
        assert text[0] == 'G';
      } else {
        assert text[0] == 'F';
      }
    } else if AttendanceBehind(result) {
      assert |text| == 19;
    }
  }

  /** Behind only in easy problems (10 against 15), ahead in medium (20 against 18),
      tied in hard (5 each) and in attendance (3 each): only easy is named. */
  lemma EasyOnlyScenario(result: ComparisonResult)
    requires result.myProfile.solvedEasy == 10 && result.competitorProfile.solvedEasy == 15
    requires result.myProfile.solvedMedium == 20 && result.competitorProfile.solvedMedium == 18
    requires result.myProfile.solvedHard == 5 && result.competitorProfile.solvedHard == 5
    requires result.myProfile.contestAttend == 3 && result.competitorProfile.contestAttend == 3
    ensures LessSolvedCategories(result) == [Easy]
    ensures Interpretation(result) == "Focus more on easy problems."
  {
  }

  /** The category lists `LessSolvedCategories` can return: the subsets of the three
      categories, each in easy, medium, hard order. */
  const OrderedSubsets: seq<seq<Category>> :=
    [[], [Easy], [Medium], [Hard], [Easy, Medium], [Easy, Hard], [Medium, Hard], [Easy, Medium, Hard]]

  /** A list without repetition in easy, medium, hard order is one of `OrderedSubsets`. */
  lemma OrderedIsSubset(less: seq<Category>)
    requires forall i, j :: 0 <= i < j < |less| ==> Position(less[i]) < Position(less[j])
    ensures less in OrderedSubsets
  {
    assert |less| >= 4 ==> Position(less[0]) < Position(less[1]) < Position(less[2]) < Position(less[3]);
    if |less| == 3 {
      assert Position(less[0]) < Position(less[1]) < Position(less[2]);
      assert less == [Easy, Medium, Hard];
    } else if |less| == 2 {
      assert Position(less[0]) < Position(less[1]);
      assert less == [less[0], less[1]];
    } else if |less| == 1 {
      match less[0]
      case Easy => assert less == OrderedSubsets[1];
      case Medium => assert less == OrderedSubsets[2];
      case Hard => assert less == OrderedSubsets[3];
    }
  }

  /** How each ordered category list is written. */
  lemma RenderedValues()
    ensures SerialList(Labels([])) == ""
    ensures SerialList(Labels([Easy])) == "easy"
    ensures SerialList(Labels([Medium])) == "medium"
    ensures SerialList(Labels([Hard])) == "hard"
    ensures SerialList(Labels([Easy, Medium])) == "easy and medium"
    ensures SerialList(Labels([Easy, Hard])) == "easy and hard"
    ensures SerialList(Labels([Medium, Hard])) == "medium and hard"
    ensures SerialList(Labels([Easy, Medium, Hard])) == "easy, medium, and hard"
  {
    assert Labels([Easy]) == ["easy"];
    assert Labels([Medium]) == ["medium"];
    assert Labels([Hard]) == ["hard"];
    assert Labels([Easy, Medium]) == ["easy", "medium"];
    assert Labels([Easy, Hard]) == ["easy", "hard"];
    assert Labels([Medium, Hard]) == ["medium", "hard"];
    assert Labels([Easy, Medium, Hard]) == ["easy", "medium", "hard"];
    SerialListUpToThree(["easy", "medium", "hard"]);
  }

  /** Different ordered category lists are written differently. */
  lemma RenderedDetermines(l1: seq<Category>, l2: seq<Category>)
    requires l1 in OrderedSubsets && l2 in OrderedSubsets
    requires SerialList(Labels(l1)) == SerialList(Labels(l2))
    ensures l1 == l2
  {
    RenderedValues();
    var w1 := SerialList(Labels(l1));
    if |w1| == 4 {
      assert w1[0] == SerialList(Labels(l2))[0];
    } else if |w1| == 15 {
      assert w1[0] == SerialList(Labels(l2))[0];
    }
  }

  /** The first letter of the advice: "G" when attendance is behind, otherwise "Y" for
      the praise and "F" when categories follow. */
  lemma AdviceOpening(result: ComparisonResult)
    ensures |Interpretation(result)| > 0
    ensures Interpretation(result)[0] ==
      if AttendanceBehind(result) then 'G'
      else if LessSolvedCategories(result) == [] then 'Y'
      else 'F'
  {
  }

  /** The list inside a sentence can be cut back out of it. */
  lemma Between(prefix: string, list: string, suffix: string)
    ensures var text := prefix + list + suffix;
      text[|prefix|..|text| - |suffix|] == list
  {
  }

  /** The advice text determines the situation: equal advice means the same categories
      are behind and the same side of the attendance comparison. */
  lemma AdviceDetermines(r1: ComparisonResult, r2: ComparisonResult)
    requires Interpretation(r1) == Interpretation(r2)
    ensures LessSolvedCategories(r1) == LessSolvedCategories(r2)
    ensures AttendanceBehind(r1) == AttendanceBehind(r2)
  {
    var l1, l2 := LessSolvedCategories(r1), LessSolvedCategories(r2);
    var text := Interpretation(r1);
    AdviceOpening(r1);
    AdviceOpening(r2);
    OrderedIsSubset(l1);
    OrderedIsSubset(l2);
    RenderedValues();
    var w1, w2 := SerialList(Labels(l1)), SerialList(Labels(l2));
    if l1 != [] && l2 != [] {
      var prefix := if AttendanceBehind(r1) then "Give more contests and focus more on " else "Focus more on ";
      Between(prefix, w1, " problems.");
      Between(prefix, w2, " problems.");
      RenderedDetermines(l1, l2);
    }
  }
}
