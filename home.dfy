/**
 * The home screen (src/home/Home.tsx): the quiz options record, the gate
 * that enables starting a quiz, the minutes-to-seconds timer conversion on
 * start, restoring stored options on mount, and the storage effects of the
 * Logout, New Quiz and Continue Quiz buttons.
 */
module Home {
  import opened Wrappers
  import opened Records
  import opened Storage
  import opened Numerals

  /** A key of `QuizOptions`, as `updateOption` takes it. */
  datatype OptionKey = Category | Difficulty | QuestionType | Timer | QuestionCount

  /** The options the screen starts with: everything random, 10 minutes, 10 questions. */
  const Defaults := QuizOptions("random", "random", "random", "10", "10")

  function Get(o: QuizOptions, k: OptionKey): string {
    match k
    case Category => o.category
    case Difficulty => o.difficulty
    case QuestionType => o.questionType
    case Timer => o.timer
    case QuestionCount => o.questionCount
  }

  /** `updateOption(key, value)`: the one field changes, every other keeps its value. */
  function UpdateOption(o: QuizOptions, k: OptionKey, v: string): (r: QuizOptions)
    ensures Get(r, k) == v
    ensures forall k' :: k' != k ==> Get(r, k') == Get(o, k')
  {
    match k
    case Category => o.(category := v)
    case Difficulty => o.(difficulty := v)
    case QuestionType => o.(questionType := v)
    case Timer => o.(timer := v)
    case QuestionCount => o.(questionCount := v)
  }

  /** `canStartQuiz`: the conjunction of the five fields' truthiness. */
  predicate CanStart(o: QuizOptions) {
    o.category != "" && o.difficulty != "" && o.questionType != "" && o.timer != "" && o.questionCount != ""
  }

  /** A quiz can start exactly when no option is empty; the defaults allow it. */
  lemma CanStartIffNoEmptyOption(o: QuizOptions)
    ensures CanStart(o) <==> forall k :: Get(o, k) != ""
    ensures CanStart(Defaults)
  {
    if forall k :: Get(o, k) != "" {
      assert Get(o, Category) != "" && Get(o, Difficulty) != "" && Get(o, QuestionType) != "";
      assert Get(o, Timer) != "" && Get(o, QuestionCount) != "";
    }
  }

  /**
   * `String(Number(timer) * 60)`: minutes become seconds, written without
   * leading zeros. A string that is not a decimal numeral becomes "NaN".
   */
  function TimerSeconds(timer: string): (seconds: string)
    ensures IsNumeral(timer) ==> IsNumeral(seconds) && Parse(seconds) == Parse(timer) * 60
    ensures IsNumeral(timer) ==> seconds == Show(Parse(timer) * 60)
    ensures !IsNumeral(timer) ==> seconds == "NaN"
  {
    if IsNumeral(timer) then
      var n := Parse(timer) * 60;
      ParseShow(n);
      Show(n)
    else "NaN"
  }

  /** The options `handleStartQuiz` passes on: the timer in seconds, the rest as chosen. */
  function StartedOptions(o: QuizOptions): (r: QuizOptions)
    ensures IsNumeral(o.timer) ==> IsNumeral(r.timer) && Parse(r.timer) == Parse(o.timer) * 60
    ensures forall k :: k != Timer ==> Get(r, k) == Get(o, k)
    ensures CanStart(o) ==> CanStart(r)
  {
    o.(timer := TimerSeconds(o.timer))
  }

  /**
   * The options after the mount effect reads "quiz-options": the stored
   * record's `options` when the item is there and has that field, otherwise
   * the current options.
   */
  function RestoredOptions(current: QuizOptions, items: map<string, Value>): (r: QuizOptions)
    ensures r != current ==> "quiz-options" in items && items["quiz-options"] == SavedOptions(Some(r))
    ensures "quiz-options" in items && items["quiz-options"].SavedOptions? && items["quiz-options"].options.Some?
      ==> r == items["quiz-options"].options.value
  {
    if Present(items, "quiz-options") && items["quiz-options"].SavedOptions? && items["quiz-options"].options.Some?
    then items["quiz-options"].options.value
    else current
  }

  class HomeComponent {
    var options: QuizOptions
    var isLoading: bool
    var error: string
    const storage: LocalStorage

    /** Mounting the screen: the category request is pending and stored options, if any, are restored. */
    constructor (storage: LocalStorage)
      ensures options == RestoredOptions(Defaults, storage.items)
      ensures isLoading && error == "" && this.storage == storage
    {
      options := RestoredOptions(Defaults, storage.items);
      isLoading := true;
      error := "";
      this.storage := storage;
    }

    /** The category request settles; `failure` is its error message when it threw. */
    method CategoriesSettled(failure: Option<string>)
      modifies this`isLoading, this`error
      ensures !isLoading
      ensures error == if failure.Some? then failure.value else old(error)
    {
      if failure.Some? {
        error := failure.value;
      }
      isLoading := false;
    }

    method SetOption(k: OptionKey, v: string)
      modifies this`options
      ensures options == UpdateOption(old(options), k, v)
    {
      options := UpdateOption(options, k, v);
    }

    /** `hasQuizSession`. */
    predicate HasQuizSession()
      reads this, storage
    {
      Present(storage.items, "quiz-session")
    }

    predicate NewQuizEnabled()
      reads this
    {
      CanStart(options) && !isLoading
    }

    /** Continue Quiz needs, beyond New Quiz's conditions, a stored "quiz-session". */
    predicate ContinueEnabled()
      reads this, storage
      ensures ContinueEnabled() ==> NewQuizEnabled() && "quiz-session" in storage.items
    {
      NewQuizEnabled() && HasQuizSession()
    }

    /**
     * `handleStartQuiz`, the Continue Quiz button's handler: when the options
     * allow a start, the timer field is converted to seconds in place and the
     * options are passed to the quiz screen; otherwise nothing happens.
     */
    method HandleStartQuiz() returns (navigation: Option<QuizOptions>)
      modifies this`options
      ensures !CanStart(old(options)) ==> navigation == None && options == old(options)
      ensures CanStart(old(options)) ==> options == StartedOptions(old(options)) && navigation == Some(options)
    {
      if !CanStart(options) {
        return None;
      }
      options := options.(timer := TimerSeconds(options.timer));
      navigation := Some(options);
    }

    /**
     * The New Quiz button's click handler: the stored session is dropped, then
     * the quiz starts as `HandleStartQuiz` does. This models the handler itself;
     * the page only calls it while `NewQuizEnabled()` holds.
     */
    method NewQuiz() returns (navigation: Option<QuizOptions>)
      modifies this`options, storage
      ensures storage.items == old(storage.items) - {"quiz-session"}
      ensures !HasQuizSession()
      ensures !CanStart(old(options)) ==> navigation == None && options == old(options)
      ensures CanStart(old(options)) ==> options == StartedOptions(old(options)) && navigation == Some(options)
    {
      storage.RemoveItem("quiz-session");
      navigation := HandleStartQuiz();
    }

    /** The Continue Quiz button, which can only be clicked when it is enabled: the quiz always starts. */
    method ContinueQuiz() returns (navigation: Option<QuizOptions>)
      requires ContinueEnabled()
      modifies this`options
      ensures options == StartedOptions(old(options)) && navigation == Some(options)
      ensures HasQuizSession()
    {
      navigation := HandleStartQuiz();
    }

    /** The Logout button: exactly "user" and "api_token" are removed. */
    method Logout()
      modifies storage
      ensures storage.items == old(storage.items) - {"user", "api_token"}
    {
      storage.RemoveItem("user");
      storage.RemoveItem("api_token");
    }
  }
}
