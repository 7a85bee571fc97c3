/** Optional values, standing in for JavaScript's `undefined`/`null`. */
module Wrappers {
  datatype Option<+T> = None | Some(value: T)
}

/** The records the chat client exchanges with its server and keeps in React state. */
module Entities {
  import opened Wrappers

  /** Mongo `_id` values are opaque strings to the client. */
  type UserId = string
  type RoomId = string

  /** One entry of a room's `members` list (`_id`, `username`). */
  datatype Member = Member(id: UserId, username: Option<string>)

  /** A room as returned by the rooms API. */
  datatype Room = Room(id: RoomId, name: string, description: string, members: seq<Member>)

  /** The signed-in user as returned by the profile API; the component starts from `{}`,
      which is `User(None, None)`. */
  datatype User = User(id: Option<UserId>, username: Option<string>)

  /** History messages carry the server's `createdAt` string; live messages are stamped
      with the client's clock on receipt. */
  datatype Timestamp = CreatedAt(iso: string) | ReceivedAt(ms: nat)

  /** The canonical message shape the chat view renders. */
  datatype Message = Message(sender: string, text: string, timestamp: Timestamp)
}
