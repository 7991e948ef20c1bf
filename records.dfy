/** Records that the three screens share through local storage. */
module Records {

  /** An entry of the mock user registry (`User` in src/hooks/useAuth.ts). */
  datatype User = User(id: int, username: string, password: string, email: string)

  /**
   * The quiz configuration chosen on the home screen (`QuizOptions` in
   * src/home/Home.tsx). Every field is a string, as in the source; the field
   * the source calls `type` is `questionType` here.
   */
  datatype QuizOptions = QuizOptions(
    category: string,
    difficulty: string,
    questionType: string,
    timer: string,
    questionCount: string)
}
