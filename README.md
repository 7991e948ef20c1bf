# Quiz app: screens, local user registry and stored state

A Dafny model of the client-side logic of a browser quiz application built with
React. The application has three screens, and each one holds a small,
synchronous state machine:

- **Quiz screen** (`src/quiz/Quiz.tsx`). A list of questions, each with an
  optional `isCorrect` verdict. `checkAnswer` records the first answer given to
  the question under the 1-based cursor `currNum`. Later clicks on that
  question are ignored. The "Answered" counter counts the answered entries.
  The Back and Next buttons move the cursor by one and are disabled at either
  end. The "Submit" caption only appears on the Next button while that button
  is disabled, so the screen has no submit step. Cancel removes the
  `"quiz-data"` storage item.
- **Authentication hook** (`src/hooks/useAuth.ts`). A mock user registry,
  seeded with one user and kept in storage under `"users"`. The hook also
  holds a four-field form. `register` makes three checks in order: the two
  passwords are equal, the username is new, the email is new. It then appends
  a user numbered one past the registry's length. `login` takes the first user
  whose username and password match. After the token request it stores the
  token and a password-free copy of that user. The form's submit gate
  (`src/auth/Auth.tsx`) uses `passwordsMatch`, which treats an empty repeat as
  a match. `register` compares the passwords strictly.
- **Home screen** (`src/home/Home.tsx`). A record of five string options
  with a one-field update and a start gate that needs every field to be
  non-empty. On start, the timer's minutes are converted to seconds in place.
  On mount, options are restored from `"quiz-options"`. Logout removes
  `"user"` and `"api_token"`. New Quiz removes `"quiz-session"`, and Continue
  Quiz is enabled only while that item is present.

The browser's `localStorage` is one shared object, `Storage.LocalStorage`,
whose `items` map is changed in place by the screens' methods. Each screen is
a class whose fields are the component's state variables. The pure parts
(the answered list, the counter, the cursor steps, the registration checks,
the login lookup and the option functions) are functions, and the properties
are lemmas about those functions.

Two behaviours of the code are kept as written:

- Mounting the hook runs its effects in declaration order. The stored user's
  name and email are copied into the form first. The reset effect on
  `isLogin` then empties the form, so the form always starts empty
  (`Auth.AuthHook.constructor`).
- The Quiz screen's Cancel removes `"quiz-data"`, but the home screen checks
  and clears `"quiz-session"`. So Cancel leaves a stored session in place
  (`Quiz.CancelKeepsQuizSession`).

Files: `wrappers.dfy` (Option), `numerals.dfy` (decimal numerals for
`Number`/`String`), `records.dfy` (the stored records), `storage.dfy` (the
key/value store), `quiz.dfy`, `auth.dfy`, `home.dfy`.

## Model

| member | source | states |
|---|---|---|
| `Numerals.Show` | src/home/Home.tsx:86 | `String(n)` for a whole number below 2^53 gives a non-empty string of digits with no leading zero (except "0" itself) |
| `Numerals.ParseShow` | src/home/Home.tsx:86 | reading back the decimal string written for `n` gives `n` |
| `Storage.Present` | src/home/Home.tsx:93 | body: `Boolean(localStorage.getItem(key))`, i.e. the key holds an item other than the empty string |
| `Storage.LocalStorage.SetItem` | src/hooks/useAuth.ts:107-115 | the item under the key becomes the value; every other item is unchanged |
| `Storage.LocalStorage.RemoveItem` | src/home/Home.tsx:105-106 | exactly the key's item is removed; every other item is unchanged |
| `Quiz.RecordAnswer` | src/quiz/Quiz.tsx:11-21 | the list `checkAnswer` builds has the same length as the old one |
| `Quiz.RecordAnswerAt` | src/quiz/Quiz.tsx:13-19 | entry `i` of the new list is the old entry, except that the entry at `currNum - 1` takes the answer if it had none |
| `Quiz.OnlyCurrentEntryChanges` | src/quiz/Quiz.tsx:12-21 | every entry other than the one at `currNum - 1` is identical afterwards, and the length is kept |
| `Quiz.FirstAnswerWins` | src/quiz/Quiz.tsx:14 | when the current question already has `isCorrect` (or the cursor is off the list) the whole list is unchanged |
| `Quiz.AnswerRecorded` | src/quiz/Quiz.tsx:16-19 | on an unanswered current question, `isCorrect` becomes `answer == correctAnswer`, and the question text, correct answer and shuffled answers are kept |
| `Quiz.RecordAnswerIdempotent` | src/quiz/Quiz.tsx:14 | answering twice with any two answers gives the same list as answering once with the first |
| `Quiz.AnsweredCount` | src/quiz/Quiz.tsx:56 | the "Answered" count never exceeds the list's length, and it is zero exactly when no entry is answered |
| `Quiz.AnsweredCountStep` | src/quiz/Quiz.tsx:56 | after `checkAnswer` the count is the same or one higher; it is one higher exactly when the current question was unanswered |
| `Quiz.BackEnabled` | src/quiz/Quiz.tsx:91 | body: Back is enabled unless the cursor is at 1 |
| `Quiz.NextEnabled` | src/quiz/Quiz.tsx:98 | body: Next is enabled unless the cursor equals the list's length |
| `Quiz.Step` | src/quiz/Quiz.tsx:88-98 | one click moves the cursor by at most one (Back never up, Next never down); the cursor moves exactly when the clicked button is enabled, whatever the list's length; a cursor in [1, length] stays there |
| `Quiz.NextLabel` | src/quiz/Quiz.tsx:95-100 | the Next button reads "Submit" exactly when it is disabled, and "Next" otherwise |
| `Quiz.CursorStaysInRange` | src/quiz/Quiz.tsx:88-98 | on a non-empty list, a cursor starting in [1, length] stays in [1, length] after any sequence of Back/Next clicks |
| `Quiz.EmptyListCursorEscapes` | src/quiz/Quiz.tsx:98 | on an empty list the Next guard (`currNum == length`) never holds for a cursor at 1 or above, so `n` clicks on Next move the cursor from `c` to `c + n`, without bound |
| `Quiz.CancelKeepsQuizSession` | src/quiz/Quiz.tsx:43 | removing `"quiz-data"` does not affect whether `"quiz-session"` is present |
| `Quiz.QuizComponent.constructor` | src/quiz/Quiz.tsx:8 | the cursor starts at question 1 |
| `Quiz.QuizComponent.Answered` | src/quiz/Quiz.tsx:56 | the counter shown on screen is at most the number of questions |
| `Quiz.QuizComponent.CheckAnswer` | src/quiz/Quiz.tsx:11-21 | the list becomes `RecordAnswer` of the old list at `currNum - 1`; the counter grows by at most one; the cursor invariant is kept |
| `Quiz.QuizComponent.GoBack` | src/quiz/Quiz.tsx:88-94 | the cursor drops by one unless it is at 1, where the button is disabled |
| `Quiz.QuizComponent.GoNext` | src/quiz/Quiz.tsx:95-101 | the cursor rises by one unless it is at the list's length, where the button is disabled |
| `Quiz.QuizComponent.Cancel` | src/quiz/Quiz.tsx:42-45 | storage loses exactly the `"quiz-data"` item; presence of `"quiz-session"` is unchanged |
| `Auth.WithField` | src/hooks/useAuth.ts:73-79 | `handleChange` sets the named field and keeps the other three |
| `Auth.PasswordsMatch` | src/hooks/useAuth.ts:69-71 | body: the repeat is empty or equals the password |
| `Auth.SubmitDisabled` | src/auth/Auth.tsx:23-24 | body: the form's button is disabled while loading, and in registration mode also when `passwordsMatch` fails or the email is empty |
| `Auth.UsernameTaken` | src/hooks/useAuth.ts:134 | true exactly when some registered user has the username |
| `Auth.EmailTaken` | src/hooks/useAuth.ts:140 | true exactly when some registered user has the email |
| `Auth.RegisterCheck` | src/hooks/useAuth.ts:128-144 | "Passwords do not match!" exactly when the passwords differ; else "Username has already exist!" exactly when the username is taken; else "Email has already exist!" exactly when the email is taken; no error exactly when all three checks pass |
| `Auth.Registered` | src/hooks/useAuth.ts:146-154 | a rejected form leaves the registry unchanged; an accepted one appends exactly one user at the end, with id old length + 1 and the form's username, password and email, and keeps every earlier entry |
| `Auth.SeedWellFormed` | src/hooks/useAuth.ts:29-41 | the one-user seed has distinct usernames and emails and ids equal to position + 1 |
| `Auth.RegisteredWellFormed` | src/hooks/useAuth.ts:134-154 | one registration keeps usernames distinct, emails distinct and `users[i].id == i + 1` |
| `Auth.RegistryStaysWellFormed` | src/hooks/useAuth.ts:29-41 | from the seed, any series of registrations leaves a well-formed registry |
| `Auth.PasswordsMatchVersusRegister` | src/hooks/useAuth.ts:69-71 | `passwordsMatch` holds exactly when the repeat is empty or `register`'s strict password check passes |
| `Auth.EmptyRepeatPassesGate` | src/auth/Auth.tsx:23-24 | for every registry, a registration form with an empty repeat but a non-empty password and email passes `isSubmitDisabled` when not loading, and `register` would reject it with "Passwords do not match!"; in the page the repeat input's `required` attribute (src/auth/Auth.tsx:159) stops the browser from submitting it |
| `Auth.FindUser` | src/hooks/useAuth.ts:86-89 | `users.find` gives the first user matching both username and password, and nothing exactly when no user matches |
| `Auth.LoginOutcome` | src/hooks/useAuth.ts:86-120 | storage is written exactly when some user matches and the token response is OK; the writes are then exactly `api_token` = the token and `user` = the first match's id, username and email (no password), with no error; no match gives "Wrong username or password"; a failed request gives its message or "HTTP error! status: N" |
| `Auth.StoredUsers` | src/hooks/useAuth.ts:29-41 | a stored `"users"` registry is the one read; without a stored `"users"` item the registry is the one-user seed |
| `Auth.AuthHook.constructor` | src/hooks/useAuth.ts:43-61 | after mount the form is empty (the prefill is overwritten by the reset effect), there is no error, login mode is on, and the registry is written back under `"users"` |
| `Auth.AuthHook.HandleChange` | src/hooks/useAuth.ts:73-79 | the form becomes `WithField` of the old form |
| `Auth.AuthHook.SetIsLogin` | src/hooks/useAuth.ts:55-57 | switching mode empties the form; setting the same mode changes nothing |
| `Auth.AuthHook.Register` | src/hooks/useAuth.ts:123-165 | the registry becomes `Registered`; `isLoading` ends false; the error is the check's message or empty; on failure form, mode and storage are unchanged; on success the form is cleared, login mode is on and `"users"` holds the new registry |
| `Auth.AuthHook.Login` | src/hooks/useAuth.ts:81-121 | the error and the storage writes are those of `LoginOutcome`; `isLoading` ends false |
| `Home.UpdateOption` | src/home/Home.tsx:32-40 | `updateOption(k, v)` sets field `k` to `v` and leaves every other field unchanged |
| `Home.CanStart` | src/home/Home.tsx:77-82 | body: all five option strings are non-empty (JavaScript truthiness of strings) |
| `Home.CanStartIffNoEmptyOption` | src/home/Home.tsx:77-82 | a quiz can start exactly when none of the five options is empty; the defaults allow a start |
| `Home.TimerSeconds` | src/home/Home.tsx:86 | a numeral of minutes becomes the canonical numeral (no leading zeros) of `minutes × 60` seconds; any other string becomes "NaN" |
| `Home.StartedOptions` | src/home/Home.tsx:86-91 | the options passed on have the timer times 60 and every other field unchanged, and still allow a start |
| `Home.RestoredOptions` | src/home/Home.tsx:68-74 | the options change only to the stored record's `options`, and they do change to them when the `"quiz-options"` record exists and has that field |
| `Home.HomeComponent.constructor` | src/home/Home.tsx:24-30 | the screen starts from the defaults, restored from storage when possible, with the category request pending |
| `Home.HomeComponent.CategoriesSettled` | src/home/Home.tsx:60-64 | loading ends and a thrown error's message is shown |
| `Home.HomeComponent.SetOption` | src/home/Home.tsx:127-168 | a selection on the screen is `UpdateOption` of the old options |
| `Home.HomeComponent.HasQuizSession` | src/home/Home.tsx:93 | body: storage holds a non-empty `"quiz-session"` item |
| `Home.HomeComponent.NewQuizEnabled` | src/home/Home.tsx:176 | body: the options allow a start and the categories are no longer loading |
| `Home.HomeComponent.ContinueEnabled` | src/home/Home.tsx:183 | Continue Quiz is enabled only when New Quiz is and a `"quiz-session"` item is stored |
| `Home.HomeComponent.HandleStartQuiz` | src/home/Home.tsx:84-92 | when the options do not allow a start nothing changes and nothing is passed on; otherwise the options become `StartedOptions` in place and are passed to the quiz screen |
| `Home.HomeComponent.NewQuiz` | src/home/Home.tsx:171-175 | the click handler (the page calls it only while `NewQuizEnabled` holds): `"quiz-session"` is removed and no longer present, then the quiz starts as `HandleStartQuiz` does |
| `Home.HomeComponent.ContinueQuiz` | src/home/Home.tsx:181-184 | an enabled Continue button needs a present `"quiz-session"` and always starts the quiz with the converted options |
| `Home.HomeComponent.Logout` | src/home/Home.tsx:104-107 | exactly the `"user"` and `"api_token"` items are removed |

## Left out

- The quiz engine: `src/hooks/useQuiz.ts` returns nothing. As written, the quiz screen destructures that `undefined` result (src/quiz/Quiz.tsx:7), so it throws on its first render. The model's `Quiz.QuizComponent.constructor` instead takes `quizData` as an input that stands for the list the hook would supply. So token refresh, question fetching, HTML decoding, answer shuffling, the countdown timer, session saving and statistics have no source to model. The `Quiz` record type and the `TYPE`/`DIFFICULTY` constants are also not modelled: the options keep these values as strings, as the home screen does.
- Network I/O: the category request (src/home/Home.tsx:44-67) is modelled only by its outcome (`CategoriesSettled`), and the category list is not kept. The token request in `login` is the `TokenResponse` input.
- Category sorting with the locale-dependent `localeCompare` (src/home/Home.tsx:55-57).
- JSON: stored items are structured `Value`s rather than JSON text. A stored `"users"` or `"quiz-options"` item that is not such a record would be parsed and could throw in the source; the model reads it as absent. A `token` field missing from the token response's body is not modelled.
- Home.TimerSeconds: numbers are unbounded in the model, while JavaScript's `Number` loses precision above 2^53 and `String` switches to exponent form from 10^21 on. A timer of "100000000000000000000" minutes (possible only through a restored options record) gives "6e+21" in the source and "6000000000000000000000" here.
- Numerals.Show: writes every whole number in plain decimal, which matches `String` only below 2^53; above that `String` writes the nearest double, and from 10^21 on it uses exponent form.
- Home.TimerSeconds: models `Number` only on decimal numerals. Any string that is not a decimal numeral becomes "NaN" here, while `Number` reads many of them otherwise. Examples are whitespace, signs, fractions, exponents, `0x`/`0b`/`0o` prefixes and "Infinity", and the empty string, which `Number` reads as 0. Such strings could come only from a restored options record, and the empty string never reaches the conversion because the start gate rejects it.
- Auth.LoginOutcome: a thrown value that is not an `Error` ("Unknown error") is not modelled, because `fetch` and `response.json()` only throw errors.
- The 2-second error auto-clear (src/hooks/useAuth.ts:63-67), which is driven by a timer.
- The `isLoading` state while the token request is pending. The model gives the state after the request settles.
- Presentation and routing: rendering, animations, answer highlighting, the lower-casing done by `src/home/Choice.tsx`, navigation targets, the HTML `required` attributes and the routes in `src/App.tsx`.
