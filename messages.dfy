/** The chat message record: the row the message route creates, the payload the
    socket server relays unchanged, and the item the client's message cache holds. */
module Messages {
  import opened Wrappers

  datatype Message = Message(
    id: string,
    content: string,
    fileUrl: Option<string>,
    channelId: string,
    userId: string)
}
