/**
 * The queue side of the framework: the message a submit produces and the
 * queue models it is enqueued on. The queue backend itself is a FIFO sequence
 * per queue model, as the mocked `put`/`get` of the tests behave.
 */
module Queues {
  import opened Python
  import opened Serializers

  /** The wire form of one invocation: the dict with keys uid, name, args and kwargs. */
  datatype Message = Message(uid: string, name: string, args: Blob, kwargs: Blob)

  /** A queue model named by app label and model name, as `apps.get_model` looks it up. */
  datatype QueueRef = QueueRef(appLabel: string, modelName: string)

  /** The error a `dequeue` signals when no message is available. */
  const QueueEmpty := Exc("QueueEmpty", "no message available")

  /** The installed queue models and the messages waiting on each. */
  class QueueStore {
    var queues: map<QueueRef, seq<Message>>

    constructor (installed: set<QueueRef>)
      ensures queues.Keys == installed
      ensures forall q :: q in installed ==> queues[q] == []
    {
      queues := map q | q in installed :: [];
    }

    /** `Model.objects.enqueue(message)`: the message joins the tail of its queue. */
    method Enqueue(q: QueueRef, m: Message)
      requires q in queues
      modifies this
      ensures queues == old(queues)[q := old(queues)[q] + [m]]
    {
      queues := queues[q := queues[q] + [m]];
    }

    /**
     * `Model.objects.dequeue(wait=wait)`: the head of the queue, or QueueEmpty.
     * With no concurrent producer the wait changes nothing.
     */
    method Dequeue(q: QueueRef, wait: int) returns (r: Result<Message>)
      requires q in queues
      modifies this
      ensures old(queues)[q] == [] ==> r == Err(QueueEmpty) && queues == old(queues)
      ensures old(queues)[q] != [] ==>
        r == Ok(old(queues)[q][0]) && queues == old(queues)[q := old(queues)[q][1..]]
    {
      if queues[q] == [] {
        return Err(QueueEmpty);
      }
      r := Ok(queues[q][0]);
      queues := queues[q := queues[q][1..]];
    }
  }
}
