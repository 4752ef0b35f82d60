/** KeycloakConsumer: the three listeners that keep the identity provider in
    step with the customer store. Every failure is handed back to the caller
    (the listener container), never swallowed. */
module Reconciliation {
  import opened Common
  import opened Domain
  import opened Identity
  import CustomerStore

  /** The customer is stored and carries an identity reference. */
  predicate Linked(customers: map<Id, Customer>, customerId: Id) {
    customerId in customers && customers[customerId].keycloakUserId.Some?
  }

  /** The customer is stored and has no identity reference yet. */
  predicate Unlinked(customers: map<Id, Customer>, customerId: Id) {
    customerId in customers && customers[customerId].keycloakUserId.None?
  }

  /** From the store and realm before to those after: a new user `userId` built
      from the event, and that id written on the event's customer, nothing else. */
  predicate CreatedAndLinked(customers: map<Id, Customer>, users: map<string, IdentityUser>,
                             customers': map<Id, Customer>, users': map<string, IdentityUser>,
                             event: CustomerCreatedEvent, userId: string)
    requires event.customerId in customers
  {
    userId !in users
    && users' == users[userId := IdentityUser(event.email, event.name, event.lastName)]
    && customers' == customers[event.customerId := customers[event.customerId].(keycloakUserId := Some(userId))]
  }

  class KeycloakConsumer {
    const identityProvider: IdentityProvider
    const customerService: CustomerStore.CustomerService

    ghost predicate Valid()
      reads this, customerService
    {
      customerService.Valid()
    }

    constructor (identityProvider: IdentityProvider, customerService: CustomerStore.CustomerService)
      requires customerService.Valid()
      ensures Valid()
      ensures this.identityProvider == identityProvider && this.customerService == customerService
    {
      this.identityProvider := identityProvider;
      this.customerService := customerService;
    }

    /** `handleCustomerCreated`: creates the identity user and links it, unless the
        customer is already linked. */
    method HandleCustomerCreated(event: CustomerCreatedEvent) returns (o: Outcome)
      requires Valid()
      modifies customerService, identityProvider
      ensures Valid() && identityProvider.reachable == old(identityProvider.reachable)
      // an unknown customer: RecordNotFound, nothing changes
      ensures event.customerId !in old(customerService.customers) ==>
        o == Fail(CustomerStore.CustomerNotFound(event.customerId))
        && customerService.customers == old(customerService.customers)
        && identityProvider.users == old(identityProvider.users)
      // already linked: skipped, nothing changes
      ensures Linked(old(customerService.customers), event.customerId) ==>
        o == Pass
        && customerService.customers == old(customerService.customers)
        && identityProvider.users == old(identityProvider.users)
      // not linked: a new identity user from the event, whose id is stored on the customer
      ensures Unlinked(old(customerService.customers), event.customerId) ==>
        if identityProvider.reachable && !EmailRegistered(old(identityProvider.users), event.email) then
          o == Pass
          && (exists userId :: CreatedAndLinked(old(customerService.customers), old(identityProvider.users),
                 customerService.customers, identityProvider.users, event, userId))
        else
          o.Fail? && o.error.KeycloakFailure?
          && customerService.customers == old(customerService.customers)
          && identityProvider.users == old(identityProvider.users)
      // after a pass the customer is linked
      ensures o == Pass ==> Linked(customerService.customers, event.customerId)
    {
      var found := customerService.FindById(event.customerId);
      if found.Err? {
        return Fail(found.error);
      }
      var customer := found.value;
      if customer.keycloakUserId.Some? {
        return Pass;
      }
      var created := identityProvider.CreateUser(event.email, event.name, event.lastName);
      if created.Err? {
        return Fail(created.error);
      }
      var saved := customerService.Save(customer.(keycloakUserId := Some(created.value)));
      assert CreatedAndLinked(old(customerService.customers), old(identityProvider.users),
        customerService.customers, identityProvider.users, event, created.value);
      o := Pass;
    }

    /** `handleCustomerUpdated`: copies the new names to the linked identity user;
        an unlinked customer is skipped. The customer store is never written. */
    method HandleCustomerUpdated(event: CustomerUpdatedEvent) returns (o: Outcome)
      requires Valid()
      modifies identityProvider
      ensures Valid() && identityProvider.reachable == old(identityProvider.reachable)
      ensures event.customerId !in customerService.customers ==>
        o == Fail(CustomerStore.CustomerNotFound(event.customerId)) && identityProvider.users == old(identityProvider.users)
      ensures event.customerId in customerService.customers ==>
        var ref := customerService.customers[event.customerId].keycloakUserId;
        if ref.None? then o == Pass && identityProvider.users == old(identityProvider.users)
        else if identityProvider.reachable && ref.value in old(identityProvider.users) then
          o == Pass && identityProvider.users == old(identityProvider.users)[ref.value :=
            old(identityProvider.users)[ref.value].(firstName := event.name, lastName := event.lastName)]
        else if !identityProvider.reachable then
          o == Fail(EditFailed(UNAVAILABLE)) && identityProvider.users == old(identityProvider.users)
        else o == Fail(EditFailed(USER_NOT_FOUND)) && identityProvider.users == old(identityProvider.users)
    {
      var found := customerService.FindById(event.customerId);
      if found.Err? {
        return Fail(found.error);
      }
      var customer := found.value;
      if customer.keycloakUserId.None? {
        return Pass;
      }
      o := identityProvider.EditUser(customer.keycloakUserId.value, event.name, event.lastName);
    }

    /** `handleCustomerDeleted`: removes the linked identity user; an unlinked
        customer is skipped. The customer store is never written. The customer is
        looked up by id, so this only acts while the customer is still stored. */
    method HandleCustomerDeleted(event: CustomerDeletedEvent) returns (o: Outcome)
      requires Valid()
      modifies identityProvider
      ensures Valid() && identityProvider.reachable == old(identityProvider.reachable)
      ensures event.customerId !in customerService.customers ==>
        o == Fail(CustomerStore.CustomerNotFound(event.customerId)) && identityProvider.users == old(identityProvider.users)
      ensures event.customerId in customerService.customers ==>
        var ref := customerService.customers[event.customerId].keycloakUserId;
        if ref.None? then o == Pass && identityProvider.users == old(identityProvider.users)
        else if identityProvider.reachable && ref.value in old(identityProvider.users) then
          o == Pass && identityProvider.users == old(identityProvider.users) - {ref.value}
        else o == Fail(DeleteFailed(ref.value)) && identityProvider.users == old(identityProvider.users)
    {
      var found := customerService.FindById(event.customerId);
      if found.Err? {
        return Fail(found.error);
      }
      var customer := found.value;
      if customer.keycloakUserId.None? {
        return Pass;
      }
      o := identityProvider.DeleteUser(customer.keycloakUserId.value);
    }

    /** The corrected delete handler: it acts on the identity reference the event
        carries, so it does not depend on the customer row still being stored. */
    method HandleCustomerDeletedWithReference(event: CustomerDeletedWithReferenceEvent) returns (o: Outcome)
      requires Valid()
      modifies identityProvider
      ensures Valid() && identityProvider.reachable == old(identityProvider.reachable)
      ensures event.keycloakUserId.None? ==> o == Pass && identityProvider.users == old(identityProvider.users)
      ensures event.keycloakUserId.Some? ==>
        if identityProvider.reachable && event.keycloakUserId.value in old(identityProvider.users) then
          o == Pass && identityProvider.users == old(identityProvider.users) - {event.keycloakUserId.value}
        else o == Fail(DeleteFailed(event.keycloakUserId.value)) && identityProvider.users == old(identityProvider.users)
    {
      if event.keycloakUserId.None? {
        return Pass;
      }
      o := identityProvider.DeleteUser(event.keycloakUserId.value);
    }
  }

  /** Redelivering a Created event that was handled successfully changes nothing:
      two deliveries leave the same store and realm as one. */
  method HandleCreatedTwice(consumer: KeycloakConsumer, event: CustomerCreatedEvent)
    returns (first: Outcome, second: Outcome,
             ghost customersAfterFirst: map<Id, Customer>, ghost usersAfterFirst: map<string, IdentityUser>)
    requires consumer.Valid()
    modifies consumer.customerService, consumer.identityProvider
    ensures consumer.Valid()
    ensures first == Pass ==>
      second == Pass
      && consumer.customerService.customers == customersAfterFirst
      && consumer.identityProvider.users == usersAfterFirst
  {
    first := consumer.HandleCustomerCreated(event);
    customersAfterFirst := consumer.customerService.customers;
    usersAfterFirst := consumer.identityProvider.users;
    second := consumer.HandleCustomerCreated(event);
  }
}
