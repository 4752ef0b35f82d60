/** CustomerProducer: each publish is one `convertAndSend` to the customer
    exchange, modelled as one append to the broker's message log. */
module Messaging {
  import opened Common
  import opened Domain
  import opened RabbitTopology

  datatype Payload =
    | Created(created: CustomerCreatedEvent)
    | Updated(updated: CustomerUpdatedEvent)
    | Deleted(deleted: CustomerDeletedEvent)
      /** The corrected delete event, which carries the identity reference. */
    | DeletedWithReference(deletedWithReference: CustomerDeletedWithReferenceEvent)

  datatype Message = Message(exchange: string, routingKey: string, payload: Payload)

  /** The routing key each kind of payload is sent with. */
  function KeyOf(p: Payload): (key: string)
    ensures Route(EXCHANGE, key) == {ListenerQueue(ListenerOf(p))}
  {
    EventKeysRouteToListeners();
    match p
    case Created(_) => CREATE_KEY
    case Updated(_) => UPDATE_KEY
    case Deleted(_) => DELETE_KEY
    case DeletedWithReference(_) => DELETE_KEY
  }

  /** The listener that consumes each kind of payload. */
  function ListenerOf(p: Payload): Listener {
    match p
    case Created(_) => OnCreated
    case Updated(_) => OnUpdated
    case Deleted(_) => OnDeleted
    case DeletedWithReference(_) => OnDeleted
  }

  /** The message a publish call sends for a payload. */
  function MessageFor(p: Payload): (m: Message)
    ensures m.payload == p && m.exchange == EXCHANGE
    ensures Route(m.exchange, m.routingKey) == {ListenerQueue(ListenerOf(p))}
  {
    EventKeysRouteToListeners();
    Message(EXCHANGE, KeyOf(p), p)
  }

  /** Every published message reaches exactly the queue of the listener for its payload. */
  lemma PublishedMessagesReachTheirListener(messages: seq<Message>)
    requires forall i :: 0 <= i < |messages| ==> messages[i] == MessageFor(messages[i].payload)
    ensures forall i :: 0 <= i < |messages| ==>
      Route(messages[i].exchange, messages[i].routingKey) == {ListenerQueue(ListenerOf(messages[i].payload))}
  {
    forall i | 0 <= i < |messages|
      ensures Route(messages[i].exchange, messages[i].routingKey) == {ListenerQueue(ListenerOf(messages[i].payload))}
    {
      var m := MessageFor(messages[i].payload);
      assert m == messages[i];
    }
  }

  class CustomerProducer {
    /** What `rabbitTemplate` has sent, oldest first. */
    var messages: seq<Message>

    /** Every message in the log was sent by one of the publish methods. */
    ghost predicate Valid()
      reads this
    {
      forall i :: 0 <= i < |messages| ==> messages[i] == MessageFor(messages[i].payload)
    }

    constructor ()
      ensures Valid() && messages == []
    {
      messages := [];
    }

    method PublishCustomerCreated(event: CustomerCreatedEvent)
      requires Valid()
      modifies this
      ensures Valid()
      ensures messages == old(messages) + [Message(EXCHANGE, CREATE_KEY, Created(event))]
    {
      messages := messages + [MessageFor(Created(event))];
    }

    method PublishCustomerUpdated(event: CustomerUpdatedEvent)
      requires Valid()
      modifies this
      ensures Valid()
      ensures messages == old(messages) + [Message(EXCHANGE, UPDATE_KEY, Updated(event))]
    {
      messages := messages + [MessageFor(Updated(event))];
    }

    method PublishCustomerDeleted(event: CustomerDeletedEvent)
      requires Valid()
      modifies this
      ensures Valid()
      ensures messages == old(messages) + [Message(EXCHANGE, DELETE_KEY, Deleted(event))]
    {
      messages := messages + [MessageFor(Deleted(event))];
    }

    /** The corrected delete publication: same exchange and key, richer event. */
    method PublishCustomerDeletedWithReference(event: CustomerDeletedWithReferenceEvent)
      requires Valid()
      modifies this
      ensures Valid()
      ensures messages == old(messages) + [Message(EXCHANGE, DELETE_KEY, DeletedWithReference(event))]
    {
      messages := messages + [MessageFor(DeletedWithReference(event))];
    }
  }
}
