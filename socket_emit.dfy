/** src/lib/socket-emit.ts: the HTTP side's way into the chat rooms.  The process-wide
    `global.socketIO` handle is passed in as `io`; `null` stands for "not set".  The
    bridge reads the room table and never changes it. */
module SocketEmit {
  import opened Realtime
  import opened Messages

  /** `emitNewMessage`: "message-received" to every member of `chat:<chatId>`;
      nothing at all without a handle. */
  method EmitNewMessage(io: Dispatcher?, chatId: string, message: Message) returns (out: seq<Emission>)
    ensures io == null ==> out == []
    ensures io != null ==> out == Broadcast(io.Members(ChatRoom(Str(chatId))), MessageReceived(message))
    ensures io != null && ChatRoom(Str(chatId)) !in io.rooms ==> out == []
  {
    if io != null {
      out := Broadcast(io.Members(ChatRoom(Str(chatId))), MessageReceived(message));
    } else {
      out := [];
    }
  }

  /** `emitMessageUpdate`: "message-changed" to every member of `chat:<chatId>`. */
  method EmitMessageUpdate(io: Dispatcher?, chatId: string, message: Message) returns (out: seq<Emission>)
    ensures io == null ==> out == []
    ensures io != null ==> out == Broadcast(io.Members(ChatRoom(Str(chatId))), MessageChanged(message))
  {
    if io != null {
      out := Broadcast(io.Members(ChatRoom(Str(chatId))), MessageChanged(message));
    } else {
      out := [];
    }
  }

  /** `emitMessageDelete`: "message-removed" to every member of `chat:<chatId>`. */
  method EmitMessageDelete(io: Dispatcher?, chatId: string, messageId: string) returns (out: seq<Emission>)
    ensures io == null ==> out == []
    ensures io != null ==> out == Broadcast(io.Members(ChatRoom(Str(chatId))), MessageRemoved(messageId))
  {
    if io != null {
      out := Broadcast(io.Members(ChatRoom(Str(chatId))), MessageRemoved(messageId));
    } else {
      out := [];
    }
  }

  /** The bridge reaches every subscriber, whoever caused the write, while the
      socket relay of the same event skips its sender: the two differ exactly by
      the sender's own copy. */
  lemma BridgeAndRelayDiffer(members: seq<ConnId>, sender: ConnId, message: Message)
    ensures forall c :: c in Recipients(Broadcast(members, MessageReceived(message))) <==>
      c in Recipients(BroadcastExcept(members, sender, MessageReceived(message))) || (c == sender && sender in members)
    ensures |Recipients(Broadcast(members, MessageReceived(message)))| == |members|
  {
  }
}
