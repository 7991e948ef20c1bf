/**
 * The browser's local key/value store, shared by every screen. Items are kept
 * as the structured records the application writes into them rather than as
 * their JSON text.
 */
module Storage {
  import opened Wrappers
  import opened Records

  /** What one stored item holds. */
  datatype Value =
    | Text(text: string)                                  // a plain string item, e.g. "api_token"
    | Identity(id: int, username: string, email: string)  // the logged-in user, without password
    | Registry(users: seq<User>)                          // the mock user registry under "users"
    | SavedOptions(options: Option<QuizOptions>)          // a "quiz-options" record, `options` maybe missing

  /** `Boolean(localStorage.getItem(key))`: the key holds an item that is not the empty string. */
  predicate Present(items: map<string, Value>, key: string) {
    key in items && items[key] != Text("")
  }

  class LocalStorage {
    var items: map<string, Value>

    constructor (initial: map<string, Value>)
      ensures items == initial
    {
      items := initial;
    }

    method SetItem(key: string, value: Value)
      modifies this
      ensures items == old(items)[key := value]
    {
      items := items[key := value];
    }

    method RemoveItem(key: string)
      modifies this
      ensures items == old(items) - {key}
    {
      items := items - {key};
    }
  }
}
