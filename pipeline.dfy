/** Deleting a customer and then delivering the Deleted event to the
    identity-reconciliation consumer, with the customer service and the
    consumer sharing one customer store and the broker delivering the message
    the producer appended last. */
module DeletionPipeline {
  import opened Common
  import opened Domain
  import opened Messaging
  import opened Identity
  import CustomerStore
  import CustomerUseCases
  import Reconciliation

  /** As written: `performCustomerDeletion` removes the row before publishing, and
      `handleCustomerDeleted` looks the customer up by id, so the handler always
      fails with RecordNotFound and the linked identity user is never deleted.
      The delivery happens after the deletion has committed: the publish runs inside
      the deleting transaction, so this assumes the listener reads only once that
      transaction is over (a delivery that overtakes the commit would still see the row). */
  method DeleteThenReconcileAsWritten(useCase: CustomerUseCases.CustomerUseCase, consumer: Reconciliation.KeycloakConsumer,
                                      customerId: Id)
    returns (deleted: Outcome, handled: Outcome)
    requires useCase.Valid() && consumer.Valid() && consumer.customerService == useCase.customerService
    requires customerId in useCase.customerService.customers
    modifies useCase.customerService, useCase.customerProducer, consumer.identityProvider
    ensures deleted == Pass
    ensures handled == Fail(CustomerStore.CustomerNotFound(customerId))
    ensures consumer.identityProvider.users == old(consumer.identityProvider.users)
    ensures old(useCase.customerService.customers)[customerId].keycloakUserId.Some? ==>
      var userId := old(useCase.customerService.customers)[customerId].keycloakUserId.value;
      userId in old(consumer.identityProvider.users) ==> userId in consumer.identityProvider.users
  {
    deleted := useCase.Delete(customerId);
    var messages := useCase.customerProducer.messages;
    var delivered := messages[|messages| - 1].payload;
    assert delivered == Deleted(CustomerDeletedEvent(customerId));
    handled := consumer.HandleCustomerDeleted(delivered.deleted);
  }

  /** Corrected: the Deleted event carries the identity reference, so a linked
      identity user is removed whatever the customer store holds by then. */
  method DeleteThenReconcileCorrected(useCase: CustomerUseCases.CustomerUseCase, consumer: Reconciliation.KeycloakConsumer,
                                      customerId: Id)
    returns (deleted: Outcome, handled: Outcome)
    requires useCase.Valid() && consumer.Valid() && consumer.customerService == useCase.customerService
    requires customerId in useCase.customerService.customers
    requires consumer.identityProvider.reachable
    modifies useCase.customerService, useCase.customerProducer, consumer.identityProvider
    ensures deleted == Pass
    ensures customerId !in useCase.customerService.customers
    ensures old(useCase.customerService.customers)[customerId].keycloakUserId.None? ==>
      handled == Pass && consumer.identityProvider.users == old(consumer.identityProvider.users)
    ensures old(useCase.customerService.customers)[customerId].keycloakUserId.Some? ==>
      var userId := old(useCase.customerService.customers)[customerId].keycloakUserId.value;
      userId in old(consumer.identityProvider.users) ==>
        handled == Pass && consumer.identityProvider.users == old(consumer.identityProvider.users) - {userId}
  {
    deleted := useCase.DeleteWithReference(customerId);
    var messages := useCase.customerProducer.messages;
    var delivered := messages[|messages| - 1].payload;
    assert delivered == DeletedWithReference(CustomerDeletedWithReferenceEvent(
      customerId, old(useCase.customerService.customers)[customerId].keycloakUserId));
    handled := consumer.HandleCustomerDeletedWithReference(delivered.deletedWithReference);
  }
}
