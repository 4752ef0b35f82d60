/** RabbitConfig: one direct exchange, three durable primary queues that
    dead-letter to per-type DLQs, and the six bindings, as a static table. */
module RabbitTopology {
  import opened Common

  const EXCHANGE := "CustomerExchange"

  const CREATE_QUEUE := "CustomerCreateQueue"
  const UPDATE_QUEUE := "CustomerUpdateQueue"
  const DELETE_QUEUE := "CustomerDeleteQueue"

  const CREATE_DLQ := "CustomerCreateQueue.DLQ"
  const UPDATE_DLQ := "CustomerUpdateQueue.DLQ"
  const DELETE_DLQ := "CustomerDeleteQueue.DLQ"

  const CREATE_KEY := "customer.created"
  const UPDATE_KEY := "customer.updated"
  const DELETE_KEY := "customer.deleted"

  /** The listener container's retry budget (RabbitRetryConfig); the backoff and the retries themselves are not modelled. */
  const MAX_ATTEMPTS := 5

  /** `x-dead-letter-exchange` and `x-dead-letter-routing-key`. */
  datatype DeadLetterTarget = DeadLetterTarget(exchange: string, routingKey: string)

  datatype QueueSpec = QueueSpec(name: string, durable: bool, deadLetter: Option<DeadLetterTarget>)

  datatype BindingSpec = BindingSpec(queue: string, exchange: string, routingKey: string)

  const Queues: seq<QueueSpec> := [
    QueueSpec(CREATE_QUEUE, true, Some(DeadLetterTarget(EXCHANGE, CREATE_DLQ))),
    QueueSpec(UPDATE_QUEUE, true, Some(DeadLetterTarget(EXCHANGE, UPDATE_DLQ))),
    QueueSpec(DELETE_QUEUE, true, Some(DeadLetterTarget(EXCHANGE, DELETE_DLQ))),
    QueueSpec(CREATE_DLQ, true, None),
    QueueSpec(UPDATE_DLQ, true, None),
    QueueSpec(DELETE_DLQ, true, None)
  ]

  const Bindings: seq<BindingSpec> := [
    BindingSpec(CREATE_QUEUE, EXCHANGE, CREATE_KEY),
    BindingSpec(UPDATE_QUEUE, EXCHANGE, UPDATE_KEY),
    BindingSpec(DELETE_QUEUE, EXCHANGE, DELETE_KEY),
    BindingSpec(CREATE_DLQ, EXCHANGE, CREATE_DLQ),
    BindingSpec(UPDATE_DLQ, EXCHANGE, UPDATE_DLQ),
    BindingSpec(DELETE_DLQ, EXCHANGE, DELETE_DLQ)
  ]

  /** Direct-exchange routing: the queues bound to `exchange` with exactly `routingKey`. */
  function Route(exchange: string, routingKey: string): (queues: set<string>)
    ensures exchange != EXCHANGE ==> queues == {}
    ensures forall q :: q in queues ==> exists i :: 0 <= i < |Queues| && Queues[i].name == q
  {
    BoundQueuesDeclared();
    set b | b in Bindings && b.exchange == exchange && b.routingKey == routingKey :: b.queue
  }

  /** Every binding names a declared queue. */
  lemma BoundQueuesDeclared()
    ensures forall b :: b in Bindings ==> exists i :: 0 <= i < |Queues| && Queues[i].name == b.queue
  {
    assert Queues[0].name == Bindings[0].queue && Queues[1].name == Bindings[1].queue;
    assert Queues[2].name == Bindings[2].queue && Queues[3].name == Bindings[3].queue;
    assert Queues[4].name == Bindings[4].queue && Queues[5].name == Bindings[5].queue;
  }

  /** The declaration of the queue with that name, if there is one. */
  function FindQueue(name: string, queues: seq<QueueSpec>): (r: Option<QueueSpec>)
    ensures r.Some? ==> r.value in queues && r.value.name == name
    ensures r.None? ==> forall i :: 0 <= i < |queues| ==> queues[i].name != name
    decreases |queues|
  {
    if queues == [] then None
    else if queues[0].name == name then Some(queues[0])
    else FindQueue(name, queues[1..])
  }

  /** Where a message rejected from `queue` ends up: the queues its dead-letter target routes to. */
  function DeadLetterDestination(queue: string): (dest: set<string>)
    ensures dest <= {CREATE_DLQ, UPDATE_DLQ, DELETE_DLQ}
  {
    var q := FindQueue(queue, Queues);
    if q.None? || q.value.deadLetter.None? then {}
    else Route(q.value.deadLetter.value.exchange, q.value.deadLetter.value.routingKey)
  }

  /** The queue each handler of the identity-reconciliation consumer listens on. */
  datatype Listener = OnCreated | OnUpdated | OnDeleted

  function ListenerQueue(l: Listener): string {
    match l
    case OnCreated => CREATE_QUEUE
    case OnUpdated => UPDATE_QUEUE
    case OnDeleted => DELETE_QUEUE
  }

  /** Each event routing key reaches exactly the queue of the matching listener. */
  lemma EventKeysRouteToListeners()
    ensures Route(EXCHANGE, CREATE_KEY) == {ListenerQueue(OnCreated)}
    ensures Route(EXCHANGE, UPDATE_KEY) == {ListenerQueue(OnUpdated)}
    ensures Route(EXCHANGE, DELETE_KEY) == {ListenerQueue(OnDeleted)}
  {
    BindingKeysDistinct();
    assert Bindings[0] in Bindings && Bindings[1] in Bindings && Bindings[2] in Bindings;
  }

  /** The six binding keys are pairwise distinct, so each key reaches exactly the one queue bound with it. */
  lemma BindingKeysDistinct()
    ensures forall i, j :: 0 <= i < j < |Bindings| ==> Bindings[i].routingKey != Bindings[j].routingKey
  {
    assert CREATE_KEY[9] == 'c' && UPDATE_KEY[9] == 'u' && DELETE_KEY[9] == 'd';
    assert CREATE_DLQ[8] == 'C' && UPDATE_DLQ[8] == 'U' && DELETE_DLQ[8] == 'D';
  }

  /** Each binding key reaches exactly its own queue. */
  lemma EveryKeyReachesOneQueue()
    ensures forall b :: b in Bindings ==> Route(EXCHANGE, b.routingKey) == {b.queue}
  {
    BindingKeysDistinct();
    forall b | b in Bindings
      ensures Route(EXCHANGE, b.routingKey) == {b.queue}
    {
      var i :| 0 <= i < |Bindings| && Bindings[i] == b;
      forall c | c in Bindings && c.exchange == EXCHANGE && c.routingKey == b.routingKey
        ensures c == b
      {
        var j :| 0 <= j < |Bindings| && Bindings[j] == c;
        assert i == j;
      }
    }
  }

  /** The six queue names are pairwise distinct. */
  lemma QueueNamesDistinct()
    ensures forall i, j :: 0 <= i < j < |Queues| ==> Queues[i].name != Queues[j].name
  {
    assert CREATE_QUEUE[8] == 'C' && UPDATE_QUEUE[8] == 'U' && DELETE_QUEUE[8] == 'D';
    assert |CREATE_QUEUE| < |CREATE_DLQ| && |UPDATE_QUEUE| < |UPDATE_DLQ| && |DELETE_QUEUE| < |DELETE_DLQ|;
    assert |CREATE_QUEUE| < |UPDATE_DLQ| && |CREATE_QUEUE| < |DELETE_DLQ| && |UPDATE_QUEUE| < |DELETE_DLQ|;
    assert CREATE_DLQ[8] == 'C' && UPDATE_DLQ[8] == 'U' && DELETE_DLQ[8] == 'D';
  }

  /** Lookup by name returns the first declaration with that name. */
  lemma {:induction false} FindQueueFindsFirst(name: string, queues: seq<QueueSpec>, i: nat)
    requires i < |queues| && queues[i].name == name
    requires forall j :: 0 <= j < i ==> queues[j].name != name
    ensures FindQueue(name, queues) == Some(queues[i])
    decreases i
  {
    if i > 0 {
      FindQueueFindsFirst(name, queues[1..], i - 1);
    }
  }

  /** Looking up any declared queue by its name yields its own declaration. */
  lemma LookupDeclaredQueue(i: nat)
    requires i < |Queues|
    ensures FindQueue(Queues[i].name, Queues) == Some(Queues[i])
  {
    QueueNamesDistinct();
    FindQueueFindsFirst(Queues[i].name, Queues, i);
  }

  /** A message dead-lettered from a primary queue lands in that queue's DLQ, and nowhere else. */
  lemma PrimaryQueuesDeadLetterToTheirDlq()
    ensures DeadLetterDestination(CREATE_QUEUE) == {CREATE_DLQ}
    ensures DeadLetterDestination(UPDATE_QUEUE) == {UPDATE_DLQ}
    ensures DeadLetterDestination(DELETE_QUEUE) == {DELETE_DLQ}
  {
    DlqKeysRouteToDlqs();
    DeclaredQueueDeadLetters(0);
    DeclaredQueueDeadLetters(1);
    DeclaredQueueDeadLetters(2);
  }

  /** A declared queue dead-letters wherever its own target routes. */
  lemma DeclaredQueueDeadLetters(i: nat)
    requires i < |Queues| && Queues[i].deadLetter.Some?
    ensures DeadLetterDestination(Queues[i].name) == Route(Queues[i].deadLetter.value.exchange, Queues[i].deadLetter.value.routingKey)
  {
    LookupDeclaredQueue(i);
  }

  /** Each DLQ is bound under its own name. */
  lemma DlqKeysRouteToDlqs()
    ensures Route(EXCHANGE, CREATE_DLQ) == {CREATE_DLQ}
    ensures Route(EXCHANGE, UPDATE_DLQ) == {UPDATE_DLQ}
    ensures Route(EXCHANGE, DELETE_DLQ) == {DELETE_DLQ}
  {
    EveryKeyReachesOneQueue();
    assert Bindings[3] in Bindings && Bindings[4] in Bindings && Bindings[5] in Bindings;
  }

  /** DLQs have no dead-letter target of their own, and every queue is durable. */
  lemma DlqsAreTerminalAndQueuesDurable()
    ensures forall q :: q in Queues ==> q.durable
    ensures DeadLetterDestination(CREATE_DLQ) == {}
    ensures DeadLetterDestination(UPDATE_DLQ) == {}
    ensures DeadLetterDestination(DELETE_DLQ) == {}
  {
    LookupDeclaredQueue(3);
    LookupDeclaredQueue(4);
    LookupDeclaredQueue(5);
  }
}
