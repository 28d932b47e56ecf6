/** A message queue with one receiver at a time: a message stays at the front of the queue until the
    receiver acknowledges it. */
module MessageQueues {
  import opened Options

  type Message = string
  type ReceiverId = nat

  datatype Delivery = Delivery(receiver: ReceiverId, message: Message)

  /** A first-in first-out queue that is written to its file on every change. */
  class PersistentQueue {
    var queue: seq<Message>
    var file: seq<Message>

    /** Continues with what the file holds. */
    constructor (contents: seq<Message>)
      ensures queue == contents && file == contents
    {
      queue, file := contents, contents;
    }

    predicate IsEmpty()
      reads this
    {
      queue == []
    }

    function Peek(): Message
      requires queue != []
      reads this
    {
      queue[0]
    }

    method Dequeue() returns (value: Message)
      requires queue != []
      modifies this
      ensures [value] + queue == old(queue) && file == queue
    {
      value := queue[0];
      queue := queue[1..];
      Save();
    }

    method Enqueue(value: Message)
      modifies this
      ensures queue == old(queue) + [value] && file == queue
    {
      queue := queue + [value];
      Save();
    }

    method Save()
      modifies this`file
      ensures file == queue
    {
      file := queue;
    }
  }

  class MessageQueueStorage {
    const queueData: PersistentQueue
    var receiveAckPending: bool
    var messageReceiver: Option<ReceiverId>

    /** All messages ever sent, those acknowledged, and the calls made to receivers. `outstanding` says
        that the bound receiver still owes an acknowledgement. */
    ghost var sent: seq<Message>
    ghost var acked: seq<Message>
    ghost var deliveries: seq<Delivery>
    ghost var outstanding: bool

    /** Nothing is lost or reordered: what was sent is what was acknowledged, then what is queued; and
        the one unacknowledged delivery is of the message at the front. */
    ghost predicate Valid()
      reads this, queueData
    {
      && sent == acked + queueData.queue
      && queueData.file == queueData.queue
      && (outstanding ==>
           && receiveAckPending && messageReceiver.Some?
           && |acked| < |sent| && deliveries != []
           && deliveries[|deliveries| - 1] == Delivery(messageReceiver.value, sent[|acked|]))
      && (receiveAckPending ==> messageReceiver.Some? && queueData.queue != [])
      && (messageReceiver.Some? && queueData.queue != [] ==> receiveAckPending)
    }

    /** A receiver is bound and messages wait, but none has been given to it. */
    ghost predicate Stalled()
      reads this, queueData
    {
      messageReceiver.Some? && queueData.queue != [] && !outstanding
    }

    constructor (contents: seq<Message>)
      ensures Valid() && fresh(queueData) && sent == contents && acked == [] && deliveries == []
      ensures messageReceiver == None
    {
      queueData := new PersistentQueue(contents);
      receiveAckPending, messageReceiver := false, None;
      sent, acked, deliveries, outstanding := contents, [], [], false;
    }

    method Send(message: Message)
      requires Valid()
      modifies this, queueData
      ensures Valid() && sent == old(sent) + [message] && acked == old(acked) && messageReceiver == old(messageReceiver)
      ensures Stalled() <==> old(Stalled())
      ensures deliveries == old(deliveries) +
        (if old(messageReceiver.Some? && queueData.queue == []) then [Delivery(messageReceiver.value, message)] else [])
    {
      queueData.Enqueue(message);
      sent := sent + [message];
      MaybeSendNextMessage();
    }

    /** A receiver takes the place of any other. It is given the front message at once, unless an
        acknowledgement was still owed: then it is given nothing, and that is the only way to stall. */
    method RegisterReceiver(receiver: ReceiverId)
      requires Valid()
      modifies this
      ensures Valid() && sent == old(sent) && acked == old(acked) && messageReceiver == Some(receiver)
      ensures Stalled() <==> old(receiveAckPending)
      ensures deliveries == old(deliveries) +
        (if !old(receiveAckPending) && queueData.queue != [] then [Delivery(receiver, sent[|acked|])] else [])
    {
      messageReceiver := Some(receiver);
      outstanding := false;
      MaybeSendNextMessage();
    }

    /** The receiver's channel closes. An unacknowledged message stays in front for the next one. */
    method ReceiverClosed()
      requires Valid() && messageReceiver.Some?
      modifies this
      ensures Valid() && messageReceiver == None && !receiveAckPending && !Stalled()
      ensures sent == old(sent) && acked == old(acked) && deliveries == old(deliveries)
    {
      messageReceiver := None;
      receiveAckPending := false;
      outstanding := false;
    }

    /** The receiver acknowledges: only now does the message leave the queue. */
    method Acknowledge()
      requires Valid() && outstanding
      modifies this, queueData
      ensures Valid() && sent == old(sent) && messageReceiver == old(messageReceiver) && !Stalled()
      ensures acked == old(acked) + [old(deliveries)[|old(deliveries)| - 1].message]
      ensures deliveries == old(deliveries) +
        (if queueData.queue != [] then [Delivery(messageReceiver.value, sent[|acked|])] else [])
    {
      receiveAckPending := false;
      outstanding := false;
      var value := queueData.Dequeue();
      acked := acked + [value];
      assert sent == acked + queueData.queue;
      MaybeSendNextMessage();
    }

    method MaybeSendNextMessage()
      requires sent == acked + queueData.queue && queueData.file == queueData.queue
      requires outstanding ==>
        && receiveAckPending && messageReceiver.Some?
        && |acked| < |sent| && deliveries != []
           && deliveries[|deliveries| - 1] == Delivery(messageReceiver.value, sent[|acked|])
      requires receiveAckPending ==> messageReceiver.Some? && queueData.queue != []
      modifies this`receiveAckPending, this`deliveries, this`outstanding
      ensures Valid()
      ensures var sends := messageReceiver.Some? && !old(receiveAckPending) && queueData.queue != [];
        && deliveries == old(deliveries) + (if sends then [Delivery(messageReceiver.value, sent[|acked|])] else [])
        && outstanding == (old(outstanding) || sends)
    {
      if messageReceiver.None? || receiveAckPending || queueData.IsEmpty() {
        return;
      }
      receiveAckPending := true;
      deliveries := deliveries + [Delivery(messageReceiver.value, queueData.Peek())];
      outstanding := true;
    }
  }

  /** A queue that stalls: its second receiver registers before the first has acknowledged. */
  method StalledQueue(message: Message, first: ReceiverId, second: ReceiverId) returns (queue: MessageQueueStorage)
    ensures fresh(queue) && queue.Valid() && queue.Stalled()
    ensures queue.messageReceiver == Some(second) && queue.sent == [message] && queue.acked == []
    ensures queue.deliveries == [Delivery(first, message)]
  {
    queue := new MessageQueueStorage([]);
    queue.RegisterReceiver(first);
    queue.Send(message);
    queue.RegisterReceiver(second);
  }
}
