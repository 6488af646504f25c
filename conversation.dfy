/** Messages and threads. Their classes (moya/conversation/message.py and
    moya/conversation/thread.py) are not part of this model: a message is
    the record of the fields the repositories read and write, and a thread
    is its id, its metadata and its messages, whose `add_message` appends. */
module Conversation {
  import opened Json

  /** A message. `messageId`, `sender`, `content` and `metadata` hold
      whatever JSON value the caller or the stored record gave; the
      timestamp is kept as its ISO-8601 text. */
  datatype Message = Message(
    messageId: Json,
    threadId: string,
    sender: Json,
    content: Json,
    timestamp: string,
    metadata: Json)

  datatype Thread = Thread(threadId: string, metadata: Json, messages: seq<Message>) {
    /** `add_message`: appends, changing nothing else. */
    function AddMessage(m: Message): (t: Thread)
      ensures t.threadId == threadId && t.metadata == metadata
      ensures t.messages == messages + [m]
      ensures |t.messages| == |messages| + 1 && t.messages[|messages|] == m
    {
      Thread(threadId, metadata, messages + [m])
    }
  }

  /** `Thread(thread_id=…)` with the default (empty) metadata and no messages. */
  function NewThread(id: string): Thread {
    Thread(id, EmptyObj, [])
  }
}
