/**
 * The two mini-games of the games screen: a five-question quiz and the recycling
 * sorter, which deals six of eight catalogue items to be dropped into one of six
 * bins. Both share one score board. The delayed steps of the screen (revealing an
 * explanation half a second after an answer, moving to the next item a second after
 * a bin press) are explicit steps; a pending item advance remembers the index and
 * the item count it was scheduled with.
 */
module Games {
  import opened Wrappers

  // ---------------------------------------------------------------------------
  // Records
  // ---------------------------------------------------------------------------

  /** The bin categories, which are also the item categories. */
  datatype Material = Plastic | Paper | Glass | Metal | Organic | Electronic

  /** `GameItem`, without its icon and colours. */
  datatype GameItem = GameItem(id: string, name: string, category: Material, sorted: bool)

  /** `GameStats`. */
  datatype GameStats = GameStats(score: int, correctAnswers: int, totalQuestions: int, streak: int)

  /** The two games of the screen. */
  datatype GameId = SortingGame | QuizGame

  /** The eight catalogue items the sorter deals from. */
  const Catalogue: seq<GameItem> := [
    GameItem("1", "Plastic Bottle", Plastic, false),
    GameItem("2", "Newspaper", Paper, false),
    GameItem("3", "Glass Jar", Glass, false),
    GameItem("4", "Aluminum Can", Metal, false),
    GameItem("5", "Apple Core", Organic, false),
    GameItem("6", "Old Phone", Electronic, false),
    GameItem("7", "Cardboard Box", Paper, false),
    GameItem("8", "Wine Bottle", Glass, false)]

  /** The six bins, in display order. */
  const Bins: seq<Material> := [Plastic, Paper, Glass, Metal, Organic, Electronic]

  /** The index of the right option of each quiz question. */
  const CorrectOptions: seq<int> := [1, 2, 3, 2, 1]

  const QuizLength := 5
  const QuizPoints := 100
  const SortingPoints := 20
  const SortingRoundSize := 6

  // ---------------------------------------------------------------------------
  // Scoring
  // ---------------------------------------------------------------------------

  /** The stats update both games apply after a move, worth `points` when right. */
  function Scored(prev: GameStats, isCorrect: bool, points: int): (s: GameStats)
    ensures s.totalQuestions == prev.totalQuestions
    ensures s.correctAnswers - prev.correctAnswers == (if isCorrect then 1 else 0)
    ensures s.score - prev.score == (if isCorrect then points else 0)
    ensures s.streak == (if isCorrect then prev.streak + 1 else 0)
  {
    prev.(score := prev.score + (if isCorrect then points else 0),
          correctAnswers := prev.correctAnswers + (if isCorrect then 1 else 0),
          streak := if isCorrect then prev.streak + 1 else 0)
  }

  /** A score board that has only ever been updated by `Scored` with the same `points`. */
  predicate Consistent(s: GameStats, points: int)
  {
    s.score == points * s.correctAnswers && 0 <= s.streak <= s.correctAnswers
  }

  /** Every move keeps the score at `points` per right move and the streak within the right moves. */
  lemma ScoredKeepsConsistent(prev: GameStats, isCorrect: bool, points: int)
    requires Consistent(prev, points)
    ensures Consistent(Scored(prev, isCorrect, points), points)
  {
  }

  /** A fresh board for a round of `total` questions. */
  function Fresh(total: int): (s: GameStats)
    ensures Consistent(s, QuizPoints) && Consistent(s, SortingPoints)
    ensures s.totalQuestions == total && s.score == 0 && s.correctAnswers == 0
  {
    GameStats(0, 0, total, 0)
  }

  /** How many of the quiz answers are right, question by question from the first. */
  function RightAnswers(answers: seq<int>): nat
    requires |answers| <= QuizLength
  {
    if answers == [] then 0
    else RightAnswers(answers[..|answers| - 1]) +
         (if answers[|answers| - 1] == CorrectOptions[|answers| - 1] then 1 else 0)
  }

  /** The length of the run of right answers at the end. */
  function TrailingRight(answers: seq<int>): nat
    requires |answers| <= QuizLength
  {
    if answers == [] || answers[|answers| - 1] != CorrectOptions[|answers| - 1] then 0
    else TrailingRight(answers[..|answers| - 1]) + 1
  }

  /**
   * The board after answering the first `|answers|` questions from a fresh quiz: still
   * a five-question board worth 100 points per right answer, with no more right
   * answers than answers given.
   */
  function PlayQuiz(answers: seq<int>): (s: GameStats)
    requires |answers| <= QuizLength
    ensures Consistent(s, QuizPoints) && s.totalQuestions == QuizLength
    ensures s.correctAnswers <= |answers|
  {
    if answers == [] then Fresh(QuizLength)
    else
      var k := |answers| - 1;
      Scored(PlayQuiz(answers[..k]), answers[k] == CorrectOptions[k], QuizPoints)
  }

  /**
   * A quiz run: 100 points per right answer, the correct count is the number of right
   * answers, and the streak is the run of right answers at the end.
   */
  lemma {:induction false} PlayQuizScore(answers: seq<int>)
    requires |answers| <= QuizLength
    ensures var s := PlayQuiz(answers);
            && s.correctAnswers == RightAnswers(answers)
            && s.score == QuizPoints * RightAnswers(answers)
            && s.streak == TrailingRight(answers)
            && s.streak <= s.correctAnswers <= |answers|
            && s.totalQuestions == QuizLength
  {
    if answers != [] {
      var k := |answers| - 1;
      PlayQuizScore(answers[..k]);
    }
  }

  /** Answering every question right so far makes every answer count and the streak unbroken. */
  lemma {:induction false} AllRight(answers: seq<int>)
    requires |answers| <= QuizLength && answers == CorrectOptions[..|answers|]
    ensures RightAnswers(answers) == |answers| == TrailingRight(answers)
  {
    if answers != [] {
      var k := |answers| - 1;
      assert answers[..k] == CorrectOptions[..k];
      AllRight(answers[..k]);
    }
  }

  /** A perfect quiz scores 500 with a streak of five. */
  lemma PerfectQuiz()
    ensures PlayQuiz(CorrectOptions) == GameStats(500, 5, 5, 5)
  {
    PlayQuizScore(CorrectOptions);
    assert CorrectOptions[..|CorrectOptions|] == CorrectOptions;
    AllRight(CorrectOptions);
  }

  // ---------------------------------------------------------------------------
  // Dealing and sorting items
  // ---------------------------------------------------------------------------

  /** An order of the catalogue, as the random shuffle produces it. */
  predicate IsShuffle(order: seq<nat>)
  {
    && |order| == |Catalogue|
    && (forall i :: 0 <= i < |order| ==> order[i] < |Catalogue|)
    && (forall i, j :: 0 <= i < j < |order| ==> order[i] != order[j])
  }

  /** The catalogue in its own order is one of the orders a shuffle can produce. */
  lemma CatalogueOrderIsShuffle()
    ensures exists order :: IsShuffle(order)
  {
    var identity: seq<nat> := seq(|Catalogue|, i requires 0 <= i < |Catalogue| => i);
    assert IsShuffle(identity);
  }

  /** The first six items of a shuffled catalogue, marked unsorted. */
  function Deal(order: seq<nat>): (items: seq<GameItem>)
    requires IsShuffle(order)
    ensures |items| == SortingRoundSize
    ensures forall i :: 0 <= i < |items| ==> items[i] == Catalogue[order[i]].(sorted := false)
  {
    seq(SortingRoundSize, i requires 0 <= i < SortingRoundSize => Catalogue[order[i]].(sorted := false))
  }

  /** The catalogue's identifiers are pairwise different. */
  lemma CatalogueIdsDistinct(i: nat, j: nat)
    requires i < j < |Catalogue|
    ensures Catalogue[i].id != Catalogue[j].id
  {
  }

  /** A deal holds six different catalogue items, none of them sorted. */
  lemma DealIsFreshAndDistinct(order: seq<nat>)
    requires IsShuffle(order)
    ensures var items := Deal(order);
            && (forall i :: 0 <= i < |items| ==> !items[i].sorted && items[i] in Catalogue)
            && (forall i, j :: 0 <= i < j < |items| ==> items[i].id != items[j].id)
  {
  }

  /** The items with item `k` marked sorted and every other one as it was. */
  function MarkedSorted(items: seq<GameItem>, k: int): (r: seq<GameItem>)
    ensures |r| == |items|
    ensures forall i :: 0 <= i < |items| && i != k ==> r[i] == items[i]
    ensures 0 <= k < |items| ==>
              && r[k].sorted
              && r[k].id == items[k].id && r[k].name == items[k].name && r[k].category == items[k].category
  {
    seq(|items|, i requires 0 <= i < |items| => if i == k then items[i].(sorted := true) else items[i])
  }

  /** How many items are sorted. */
  function SortedCount(items: seq<GameItem>): nat
  {
    if items == [] then 0 else SortedCount(items[..|items| - 1]) + (if items[|items| - 1].sorted then 1 else 0)
  }

  /** Marking an unsorted item sorts exactly one more item; marking a sorted one changes nothing. */
  lemma {:induction false} MarkingCountsOnce(items: seq<GameItem>, k: int)
    requires 0 <= k < |items|
    ensures SortedCount(MarkedSorted(items, k)) == SortedCount(items) + (if items[k].sorted then 0 else 1)
  {
    var r := MarkedSorted(items, k);
    var n := |items| - 1;
    if k == n {
      assert r[..n] == items[..n];
    } else {
      MarkingCountsOnce(items[..n], k);
      assert r[..n] == MarkedSorted(items[..n], k);
    }
  }

  /** Marking the same item twice is marking it once. */
  lemma MarkingIsIdempotent(items: seq<GameItem>, k: int)
    ensures MarkedSorted(MarkedSorted(items, k), k) == MarkedSorted(items, k)
  {
  }

  /** `prev.map((item, index) => index === k ? { ...item, sorted: true } : item)`. */
  method MarkSorted(items: seq<GameItem>, k: int) returns (r: seq<GameItem>)
    ensures r == MarkedSorted(items, k)
  {
    r := [];
    var index := 0;
    while index < |items|
      invariant 0 <= index <= |items|
      invariant r == MarkedSorted(items, k)[..index]
    {
      var item := items[index];
      r := r + [if index == k then item.(sorted := true) else item];
      index := index + 1;
    }
  }

  // ---------------------------------------------------------------------------
  // The screen
  // ---------------------------------------------------------------------------

  /** An item advance waiting for its second to pass: the index and item count it saw. */
  datatype PendingAdvance = PendingAdvance(index: nat, itemCount: nat)

  class GameScreen {
    var currentGame: Option<GameId>
    var stats: GameStats
    var currentQuestionIndex: nat
    var selectedAnswer: Option<int>
    var showExplanation: bool
    var pendingReveals: nat
    var sortingItems: seq<GameItem>
    var sortingBins: seq<Material>
    var currentItemIndex: nat
    var sortingGameComplete: bool
    var selectedBin: Option<Material>
    var pendingAdvances: seq<PendingAdvance>

    /**
     * The question index stays on a question; while the quiz runs, 100 points per
     * right answer and no more right answers than questions answered; while the
     * sorter runs, 20 points per right bin and a round of at most six items.
     */
    predicate Valid()
      reads this
    {
      && currentQuestionIndex < QuizLength
      && (currentGame == Some(QuizGame) ==>
            && Consistent(stats, QuizPoints)
            && stats.totalQuestions == QuizLength
            && stats.correctAnswers <= currentQuestionIndex + (if selectedAnswer.Some? then 1 else 0))
      && (currentGame == Some(SortingGame) ==>
            && Consistent(stats, SortingPoints)
            && stats.totalQuestions == |sortingItems|)
      && |sortingItems| <= SortingRoundSize
    }

    constructor ()
      ensures Valid()
      ensures currentGame.None? && stats == Fresh(0) && currentQuestionIndex == 0
      ensures selectedAnswer.None? && !showExplanation && pendingReveals == 0
      ensures sortingItems == [] && sortingBins == [] && currentItemIndex == 0
      ensures !sortingGameComplete && selectedBin.None? && pendingAdvances == []
    {
      currentGame := None;
      stats := Fresh(0);
      currentQuestionIndex := 0;
      selectedAnswer := None;
      showExplanation := false;
      pendingReveals := 0;
      sortingItems := [];
      sortingBins := [];
      currentItemIndex := 0;
      sortingGameComplete := false;
      selectedBin := None;
      pendingAdvances := [];
    }

    /**
     * `initializeSortingGame`: deal six items of a random order of the catalogue,
     * show all bins and start a fresh board for that many items.
     */
    method InitializeSortingGame()
      modifies this
      ensures exists order :: IsShuffle(order) && sortingItems == Deal(order)
      ensures sortingBins == Bins
      ensures stats == Fresh(|sortingItems|) && currentItemIndex == 0
      ensures !sortingGameComplete && selectedBin.None?
      ensures currentGame == old(currentGame) && currentQuestionIndex == old(currentQuestionIndex)
      ensures selectedAnswer == old(selectedAnswer) && showExplanation == old(showExplanation)
      ensures pendingReveals == old(pendingReveals) && pendingAdvances == old(pendingAdvances)
      ensures old(Valid()) && currentGame != Some(QuizGame) ==> Valid()
    {
      CatalogueOrderIsShuffle();
      var order :| IsShuffle(order);
      sortingItems := Deal(order);
      sortingBins := Bins;
      currentItemIndex := 0;
      sortingGameComplete := false;
      selectedBin := None;
      stats := Fresh(|sortingItems|);
    }

    /** `handleGamePress`: open a game at its first question with a fresh board. */
    method HandleGamePress(game: GameId)
      requires Valid()
      modifies this
      ensures Valid()
      ensures currentGame == Some(game) && currentQuestionIndex == 0
      ensures selectedAnswer.None? && !showExplanation
      ensures game == QuizGame ==>
                && stats == Fresh(QuizLength) && sortingItems == old(sortingItems)
                && sortingBins == old(sortingBins) && currentItemIndex == old(currentItemIndex)
                && sortingGameComplete == old(sortingGameComplete) && selectedBin == old(selectedBin)
      ensures game == SortingGame ==>
                && (exists order :: IsShuffle(order) && sortingItems == Deal(order))
                && stats == Fresh(SortingRoundSize) && currentItemIndex == 0 && !sortingGameComplete
                && sortingBins == Bins && selectedBin.None?
      ensures pendingReveals == old(pendingReveals) && pendingAdvances == old(pendingAdvances)
    {
      currentGame := Some(game);
      currentQuestionIndex := 0;
      selectedAnswer := None;
      showExplanation := false;
      match game {
        case SortingGame =>
          InitializeSortingGame();
        case QuizGame =>
          stats := Fresh(QuizLength);
      }
    }

    /**
     * `handleQuizAnswer`: the first answer to a question is recorded and scored (100
     * points and a longer streak when right, a broken streak when wrong), and the
     * explanation is scheduled; any later answer changes nothing.
     */
    method HandleQuizAnswer(answer: int)
      requires Valid() && currentGame == Some(QuizGame)
      modifies this
      ensures Valid()
      ensures old(selectedAnswer).Some? ==>
                && stats == old(stats) && selectedAnswer == old(selectedAnswer)
                && pendingReveals == old(pendingReveals)
      ensures old(selectedAnswer).None? ==>
                && selectedAnswer == Some(answer)
                && stats == Scored(old(stats), answer == CorrectOptions[currentQuestionIndex], QuizPoints)
                && pendingReveals == old(pendingReveals) + 1
      ensures currentGame == old(currentGame) && currentQuestionIndex == old(currentQuestionIndex)
      ensures showExplanation == old(showExplanation)
      ensures sortingItems == old(sortingItems) && sortingBins == old(sortingBins)
      ensures currentItemIndex == old(currentItemIndex)
      ensures sortingGameComplete == old(sortingGameComplete) && selectedBin == old(selectedBin)
      ensures pendingAdvances == old(pendingAdvances)
    {
      if selectedAnswer.Some? {
        return;
      }
      selectedAnswer := Some(answer);
      var isCorrect := answer == CorrectOptions[currentQuestionIndex];
      ScoredKeepsConsistent(stats, isCorrect, QuizPoints);
      stats := Scored(stats, isCorrect, QuizPoints);
      pendingReveals := pendingReveals + 1;
    }

    /** Half a second after an answer, its explanation is shown. */
    method RevealExplanation()
      requires Valid() && pendingReveals > 0
      modifies this
      ensures Valid()
      ensures showExplanation && pendingReveals == old(pendingReveals) - 1
      ensures stats == old(stats) && currentGame == old(currentGame)
      ensures currentQuestionIndex == old(currentQuestionIndex) && selectedAnswer == old(selectedAnswer)
      ensures sortingItems == old(sortingItems) && sortingBins == old(sortingBins)
      ensures currentItemIndex == old(currentItemIndex)
      ensures sortingGameComplete == old(sortingGameComplete) && selectedBin == old(selectedBin)
      ensures pendingAdvances == old(pendingAdvances)
    {
      showExplanation := true;
      pendingReveals := pendingReveals - 1;
    }

    /**
     * `handleNextQuestion`: move to the next question with no answer and no
     * explanation, or close the quiz after the last one.
     */
    method HandleNextQuestion()
      requires Valid() && currentGame == Some(QuizGame)
      modifies this
      ensures Valid()
      ensures old(currentQuestionIndex) < QuizLength - 1 ==>
                && currentQuestionIndex == old(currentQuestionIndex) + 1
                && selectedAnswer.None? && !showExplanation && currentGame == old(currentGame)
      ensures old(currentQuestionIndex) == QuizLength - 1 ==>
                && currentGame.None? && currentQuestionIndex == old(currentQuestionIndex)
                && selectedAnswer == old(selectedAnswer) && showExplanation == old(showExplanation)
      ensures stats == old(stats) && pendingReveals == old(pendingReveals)
      ensures sortingItems == old(sortingItems) && sortingBins == old(sortingBins)
      ensures currentItemIndex == old(currentItemIndex)
      ensures sortingGameComplete == old(sortingGameComplete) && selectedBin == old(selectedBin)
      ensures pendingAdvances == old(pendingAdvances)
    {
      if currentQuestionIndex < QuizLength - 1 {
        currentQuestionIndex := currentQuestionIndex + 1;
        selectedAnswer := None;
        showExplanation := false;
      } else {
        currentGame := None;
      }
    }

    /**
     * `handleBinSelect`: ignored once the round is complete or past its last item;
     * otherwise 20 points when the bin matches the current item's category, the
     * current item and no other marked sorted, the bin highlighted, and an advance
     * scheduled with the index and item count of this press.
     */
    method HandleBinSelect(bin: Material)
      requires Valid() && currentGame == Some(SortingGame)
      modifies this
      ensures Valid()
      ensures old(sortingGameComplete) || old(currentItemIndex) >= |old(sortingItems)| ==>
                && stats == old(stats) && sortingItems == old(sortingItems)
                && selectedBin == old(selectedBin) && pendingAdvances == old(pendingAdvances)
      ensures !old(sortingGameComplete) && old(currentItemIndex) < |old(sortingItems)| ==>
                var k := old(currentItemIndex);
                && stats == Scored(old(stats), old(sortingItems)[k].category == bin, SortingPoints)
                && sortingItems == MarkedSorted(old(sortingItems), k)
                && selectedBin == Some(bin)
                && pendingAdvances == old(pendingAdvances) + [PendingAdvance(k, |old(sortingItems)|)]
      ensures currentItemIndex == old(currentItemIndex) && sortingGameComplete == old(sortingGameComplete)
      ensures sortingBins == old(sortingBins) && showExplanation == old(showExplanation)
      ensures currentGame == old(currentGame) && currentQuestionIndex == old(currentQuestionIndex)
      ensures selectedAnswer == old(selectedAnswer) && pendingReveals == old(pendingReveals)
    {
      if sortingGameComplete || currentItemIndex >= |sortingItems| {
        return;
      }
      var item := sortingItems[currentItemIndex];
      var isCorrect := item.category == bin;
      ScoredKeepsConsistent(stats, isCorrect, SortingPoints);
      stats := Scored(stats, isCorrect, SortingPoints);
      sortingItems := MarkSorted(sortingItems, currentItemIndex);
      selectedBin := Some(bin);
      pendingAdvances := pendingAdvances + [PendingAdvance(currentItemIndex, |sortingItems|)];
    }

    /**
     * The oldest pending advance fires: the index moves one on from its current value
     * when the press was not on the last item, otherwise the round is complete; the
     * highlight is cleared either way.
     */
    method AdvanceItem()
      requires Valid() && pendingAdvances != []
      modifies this
      ensures Valid()
      ensures var p := old(pendingAdvances)[0];
              && (p.index < p.itemCount - 1 ==>
                    currentItemIndex == old(currentItemIndex) + 1 && sortingGameComplete == old(sortingGameComplete))
              && (p.index >= p.itemCount - 1 ==>
                    currentItemIndex == old(currentItemIndex) && sortingGameComplete)
      ensures selectedBin.None? && pendingAdvances == old(pendingAdvances)[1..]
      ensures stats == old(stats) && sortingItems == old(sortingItems)
      ensures sortingBins == old(sortingBins) && showExplanation == old(showExplanation)
      ensures currentGame == old(currentGame) && currentQuestionIndex == old(currentQuestionIndex)
      ensures selectedAnswer == old(selectedAnswer) && pendingReveals == old(pendingReveals)
    {
      var p := pendingAdvances[0];
      pendingAdvances := pendingAdvances[1..];
      if p.index < p.itemCount - 1 {
        currentItemIndex := currentItemIndex + 1;
      } else {
        sortingGameComplete := true;
      }
      selectedBin := None;
    }

    /**
     * `handleGoBack`: with a game open it returns to the game list and keeps every
     * other field; with none open it leaves the screen, which changes no field here.
     */
    method GoBack()
      requires Valid()
      modifies this
      ensures Valid()
      ensures currentGame.None?
      ensures stats == old(stats) && currentQuestionIndex == old(currentQuestionIndex)
      ensures selectedAnswer == old(selectedAnswer) && showExplanation == old(showExplanation)
      ensures sortingItems == old(sortingItems) && sortingBins == old(sortingBins)
      ensures currentItemIndex == old(currentItemIndex)
      ensures sortingGameComplete == old(sortingGameComplete) && selectedBin == old(selectedBin)
      ensures pendingReveals == old(pendingReveals) && pendingAdvances == old(pendingAdvances)
    {
      if currentGame.Some? {
        currentGame := None;
      }
    }
  }

  /**
   * A second press on the same item within the second scores that item again and,
   * once both advances have fired, has moved two items on.
   */
  method DoublePressSkipsAnItem(screen: GameScreen, bin: Material)
    requires screen.Valid() && screen.currentGame == Some(SortingGame)
    requires screen.pendingAdvances == [] && !screen.sortingGameComplete
    requires screen.currentItemIndex + 2 < |screen.sortingItems|
    requires screen.sortingItems[screen.currentItemIndex].category == bin
    modifies screen
    ensures screen.stats.score == old(screen.stats.score) + 2 * SortingPoints
    ensures screen.stats.correctAnswers == old(screen.stats.correctAnswers) + 2
    ensures screen.currentItemIndex == old(screen.currentItemIndex) + 2
    ensures |screen.sortingItems| == |old(screen.sortingItems)|
    ensures screen.sortingItems[old(screen.currentItemIndex) + 1] ==
            old(screen.sortingItems)[old(screen.currentItemIndex) + 1]
  {
    screen.HandleBinSelect(bin);
    screen.HandleBinSelect(bin);
    screen.AdvanceItem();
    screen.AdvanceItem();
  }
}
