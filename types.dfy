/** The record shapes of the chat client (users, channels, messages) and
    the two wrappers used to pass in what the hosted backend returns.

    A string field that JavaScript treats as falsy when it is empty or
    absent is a `string` here, and "absent" is the empty string; fields
    the record declares optional are `Option`s. */
module Types {

  datatype Option<+T> = None | Some(value: T)

  /** What a remote call produced: its value, or the error it threw. */
  datatype Result<+T> = Ok(value: T) | Err(reason: string)

  datatype Status = Online | Away | Offline

  datatype User = User(
    id: string,
    email: string,
    displayName: Option<string>,
    avatar: Option<string>,
    status: Option<Status>)

  datatype Channel = Channel(
    id: string,
    name: string,
    description: Option<string>,
    isPrivate: bool,
    createdBy: string,
    createdAt: string)

  datatype Message = Message(
    id: string,
    channelId: string,
    userId: string,
    content: string,
    messageType: string,
    createdAt: string)

  /** The fields the client supplies when it asks the backend to create a
      message; the backend adds the creation time. */
  datatype MessageInput = MessageInput(
    id: string,
    channelId: string,
    userId: string,
    content: string,
    messageType: string)
}
