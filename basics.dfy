/** Values shared by every part of the model: optional values, the opaque
    string identifiers of the social graph, and caller continuations. */
module Basics {

  /** A value that may be absent (JavaScript `undefined`). */
  datatype Option<+T> = None | Some(value: T)

  /** An identity (a feed id); opaque. */
  type Identity = string

  /** The id of one post; opaque. */
  type PostId = string

  /** The id the log assigns to a published message; opaque. */
  type MessageId = string

  /** The configured follow scope (`config.friends.scope`). */
  type Scope = string

  /** A callback supplied by a caller. Invoking it is recorded, never run:
      the token only tells callbacks apart. */
  datatype Callback = Callback(token: nat)
}
