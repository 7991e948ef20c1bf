/**
 * The quiz screen (src/quiz/Quiz.tsx): recording the first answer given to
 * the current question, the "Answered" counter, the 1-based question cursor
 * moved by the Back and Next buttons, and the Cancel button's storage effect.
 */
module Quiz {
  import opened Wrappers
  import opened Storage

  /** One displayed question; `isCorrect` is `None` until the question is answered. */
  datatype Question = Question(
    question: string,
    correctAnswer: string,
    shuffledAnswers: seq<string>,
    isCorrect: Option<bool>)

  // ---------------------------------------------------------------------------
  // Answer recording: the list built by `checkAnswer`
  // ---------------------------------------------------------------------------

  /** A question after `answer` was clicked on it: only an unanswered question takes the answer. */
  function Mark(q: Question, answer: string): Question {
    if q.isCorrect.Some? then q else q.(isCorrect := Some(answer == q.correctAnswer))
  }

  /**
   * The list `checkAnswer(answer)` builds when the cursor is on the question
   * at 0-based position `index` (that is, `currNum - 1`): the map over the
   * list that touches only the entry at `index`.
   */
  function RecordAnswer(qs: seq<Question>, index: int, answer: string): (r: seq<Question>)
    ensures |r| == |qs|
    decreases |qs|
  {
    if qs == [] then []
    else [if index == 0 then Mark(qs[0], answer) else qs[0]] + RecordAnswer(qs[1..], index - 1, answer)
  }

  /** The entry at position `i` after recording an answer at `index`. */
  lemma {:induction false} RecordAnswerAt(qs: seq<Question>, index: int, answer: string, i: int)
    requires 0 <= i < |qs|
    ensures RecordAnswer(qs, index, answer)[i] == if i == index then Mark(qs[i], answer) else qs[i]
    decreases |qs|
  {
    if i > 0 {
      RecordAnswerAt(qs[1..], index - 1, answer, i - 1);
    }
  }

  /** Recording an answer leaves the length and every entry other than the current one as they were. */
  lemma {:induction false} OnlyCurrentEntryChanges(qs: seq<Question>, index: int, answer: string)
    ensures |RecordAnswer(qs, index, answer)| == |qs|
    ensures forall i :: 0 <= i < |qs| && i != index ==> RecordAnswer(qs, index, answer)[i] == qs[i]
  {
    forall i | 0 <= i < |qs| && i != index
      ensures RecordAnswer(qs, index, answer)[i] == qs[i]
    {
      RecordAnswerAt(qs, index, answer, i);
    }
  }

  /**
   * First answer wins: when the current question is already answered (or the
   * cursor is off the list) the list is left exactly as it was.
   */
  lemma {:induction false} FirstAnswerWins(qs: seq<Question>, index: int, answer: string)
    requires !(0 <= index < |qs|) || qs[index].isCorrect.Some?
    ensures RecordAnswer(qs, index, answer) == qs
  {
    var r := RecordAnswer(qs, index, answer);
    forall i | 0 <= i < |qs|
      ensures r[i] == qs[i]
    {
      RecordAnswerAt(qs, index, answer, i);
    }
  }

  /**
   * On an unanswered current question, the answer is recorded as correct
   * exactly when it equals the correct answer; the question's text, correct
   * answer and shuffled answers are kept.
   */
  lemma {:induction false} AnswerRecorded(qs: seq<Question>, index: int, answer: string)
    requires 0 <= index < |qs| && qs[index].isCorrect.None?
    ensures var q := RecordAnswer(qs, index, answer)[index];
      && q.isCorrect == Some(answer == qs[index].correctAnswer)
      && q.question == qs[index].question
      && q.correctAnswer == qs[index].correctAnswer
      && q.shuffledAnswers == qs[index].shuffledAnswers
  {
    RecordAnswerAt(qs, index, answer, index);
  }

  /** A second answer on the same question changes nothing: the first one stays recorded. */
  lemma {:induction false} RecordAnswerIdempotent(qs: seq<Question>, index: int, first: string, second: string)
    ensures RecordAnswer(RecordAnswer(qs, index, first), index, second) == RecordAnswer(qs, index, first)
  {
    var once := RecordAnswer(qs, index, first);
    if 0 <= index < |qs| {
      RecordAnswerAt(qs, index, first, index);
    }
    FirstAnswerWins(once, index, second);
  }

  // ---------------------------------------------------------------------------
  // The "Answered" counter
  // ---------------------------------------------------------------------------

  /** `quizData.filter((q) => q.isCorrect !== undefined).length`. */
  function AnsweredCount(qs: seq<Question>): (n: nat)
    ensures n <= |qs|
    ensures n == 0 <==> forall i :: 0 <= i < |qs| ==> qs[i].isCorrect.None?
  {
    if qs == [] then 0
    else (if qs[0].isCorrect.Some? then 1 else 0) + AnsweredCount(qs[1..])
  }

  /** Recording an answer never lowers the counter and raises it by at most one. */
  lemma {:induction false} AnsweredCountStep(qs: seq<Question>, index: int, answer: string)
    ensures AnsweredCount(qs) <= AnsweredCount(RecordAnswer(qs, index, answer)) <= AnsweredCount(qs) + 1
    ensures AnsweredCount(RecordAnswer(qs, index, answer)) == AnsweredCount(qs) + 1
        <==> 0 <= index < |qs| && qs[index].isCorrect.None?
    decreases |qs|
  {
    if qs != [] {
      var rest := RecordAnswer(qs[1..], index - 1, answer);
      var head := if index == 0 then Mark(qs[0], answer) else qs[0];
      var r := RecordAnswer(qs, index, answer);
      assert r == [head] + rest;
      assert r[1..] == rest;
      assert AnsweredCount(r) == (if head.isCorrect.Some? then 1 else 0) + AnsweredCount(rest);
      assert AnsweredCount(qs) == (if qs[0].isCorrect.Some? then 1 else 0) + AnsweredCount(qs[1..]);
      AnsweredCountStep(qs[1..], index - 1, answer);
    }
  }

  // ---------------------------------------------------------------------------
  // The question cursor
  // ---------------------------------------------------------------------------

  datatype Move = Back | Next

  /** Back is disabled at question 1. */
  predicate BackEnabled(currNum: int) {
    currNum != 1
  }

  /** Next is disabled at the last question (`currNum == quizData.length`). */
  predicate NextEnabled(currNum: int, length: int) {
    currNum != length
  }

  /**
   * The label of the Next button: "Submit" is shown only when the button is
   * disabled, so the screen offers no way to submit.
   */
  function NextLabel(currNum: int, length: int): (caption: string)
    ensures caption == "Submit" <==> !NextEnabled(currNum, length)
    ensures caption == "Submit" || caption == "Next"
  {
    if currNum == length then "Submit" else "Next"
  }

  /** The cursor after a click on a button; a click on a disabled button does nothing. */
  function Step(currNum: int, length: int, move: Move): (next: int)
    ensures next == currNum || next == currNum - 1 || next == currNum + 1
    ensures 1 <= currNum <= length ==> 1 <= next <= length
    ensures move == Back ==> next <= currNum
    ensures move == Next ==> next >= currNum
    ensures next != currNum <==>
      (move == Back && BackEnabled(currNum)) || (move == Next && NextEnabled(currNum, length))
  {
    match move
    case Back => if BackEnabled(currNum) then currNum - 1 else currNum
    case Next => if NextEnabled(currNum, length) then currNum + 1 else currNum
  }

  /** The cursor after a sequence of clicks. */
  function Run(currNum: int, length: int, moves: seq<Move>): int
    decreases |moves|
  {
    if moves == [] then currNum else Run(Step(currNum, length, moves[0]), length, moves[1..])
  }

  /** On a non-empty list, a cursor that starts in [1, length] stays there whatever is clicked. */
  lemma {:induction false} CursorStaysInRange(currNum: int, length: int, moves: seq<Move>)
    requires 1 <= currNum <= length
    ensures 1 <= Run(currNum, length, moves) <= length
    decreases |moves|
  {
    if moves != [] {
      CursorStaysInRange(Step(currNum, length, moves[0]), length, moves[1..]);
    }
  }

  /** On an empty list the Next guard never closes: every click on Next moves the cursor one further off the list. */
  lemma {:induction false} EmptyListCursorEscapes(currNum: int, clicks: nat)
    requires currNum >= 1
    ensures Run(currNum, 0, seq(clicks, _ => Next)) == currNum + clicks
    decreases clicks
  {
    if clicks > 0 {
      var moves := seq(clicks, _ => Next);
      assert moves[0] == Next;
      assert moves[1..] == seq(clicks - 1, _ => Next);
      EmptyListCursorEscapes(currNum + 1, clicks - 1);
    }
  }

  /** Cancel removes "quiz-data", so a stored "quiz-session" is still there afterwards. */
  lemma CancelKeepsQuizSession(items: map<string, Value>)
    ensures Present(items - {"quiz-data"}, "quiz-session") == Present(items, "quiz-session")
  {
  }

  // ---------------------------------------------------------------------------
  // The screen's state
  // ---------------------------------------------------------------------------

  class QuizComponent {
    var quizData: seq<Question>
    var currNum: int
    const storage: LocalStorage

    /** The cursor is on a question whenever there is one. */
    ghost predicate Valid()
      reads this
    {
      quizData != [] ==> 1 <= currNum <= |quizData|
    }

    constructor (quizData: seq<Question>, storage: LocalStorage)
      ensures Valid()
      ensures this.quizData == quizData && currNum == 1 && this.storage == storage
    {
      this.quizData := quizData;
      currNum := 1;
      this.storage := storage;
    }

    /** The "Answered: n" counter. */
    function Answered(): (n: nat)
      reads this
      ensures n <= |quizData|
    {
      AnsweredCount(quizData)
    }

    /** A click on one of the current question's answer buttons. */
    method CheckAnswer(answer: string)
      requires Valid()
      modifies this`quizData
      ensures Valid()
      ensures quizData == RecordAnswer(old(quizData), currNum - 1, answer)
      ensures old(Answered()) <= Answered() <= old(Answered()) + 1
    {
      AnsweredCountStep(quizData, currNum - 1, answer);
      quizData := RecordAnswer(quizData, currNum - 1, answer);
    }

    /** A click on Back. */
    method GoBack()
      requires Valid()
      modifies this`currNum
      ensures Valid()
      ensures currNum == Step(old(currNum), |quizData|, Back)
      ensures currNum == if old(currNum) == 1 then 1 else old(currNum) - 1
    {
      if BackEnabled(currNum) {
        currNum := currNum - 1;
      }
    }

    /** A click on Next. */
    method GoNext()
      requires Valid()
      modifies this`currNum
      ensures Valid()
      ensures currNum == Step(old(currNum), |quizData|, Next)
      ensures currNum == if old(currNum) == |quizData| then old(currNum) else old(currNum) + 1
    {
      if NextEnabled(currNum, |quizData|) {
        currNum := currNum + 1;
      }
    }

    /** A click on Cancel: only the "quiz-data" item is removed. */
    method Cancel()
      modifies storage
      ensures storage.items == old(storage.items) - {"quiz-data"}
      ensures Present(storage.items, "quiz-session") == old(Present(storage.items, "quiz-session"))
    {
      storage.RemoveItem("quiz-data");
      CancelKeepsQuizSession(old(storage.items));
    }
  }
}
