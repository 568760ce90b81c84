/** The browser's local storage, reduced to the two keys the client uses. */
module Browser {
  import opened Js

  /** `localStorage`: the `token` key (absent or a string) and the `pendingSessions` key,
      held here as the list it encodes; an absent `pendingSessions` key reads as `[]`. */
  class LocalStorage {
    var token: Option<string>
    var pendingSessions: seq<Value>

    constructor (token: Option<string>, pendingSessions: seq<Value>)
      ensures this.token == token && this.pendingSessions == pendingSessions
    {
      this.token := token;
      this.pendingSessions := pendingSessions;
    }
  }
}
