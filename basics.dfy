/**
 * Vocabulary shared by the rest of the model: nullable values and the
 * identifiers (Discord snowflakes, carried as strings) the bot stores.
 */
module Basics {

  /** A JavaScript value that may be `null`. */
  datatype Option<+T> = None | Some(value: T) {
    /** The value, or `default` when it is `null` (JavaScript's `x || default` for objects). */
    function GetOr(default: T): T {
      if Some? then value else default
    }
  }

  type UserId = string
  type ChannelId = string
  type MessageId = string

  /** Milliseconds since the epoch, as `Date.now()` returns them. */
  type Timestamp = int

  /** JavaScript truthiness of a nullable string: `null` and `""` are falsy. */
  predicate Truthy(s: Option<string>) {
    s.Some? && s.value != ""
  }

  /** `s.startsWith(prefix)`. */
  predicate StartsWith(s: string, prefix: string) {
    |prefix| <= |s| && s[..|prefix|] == prefix
  }
}
