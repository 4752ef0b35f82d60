/** CustomerUseCaseImpl: create, edit and delete a customer, validating before
    any write and publishing one lifecycle event after each successful write.
    The logged customer is resolved from the token subject passed in. */
module CustomerUseCases {
  import opened Common
  import opened Domain
  import opened RabbitTopology
  import opened Messaging
  import CustomerStore
  import CustomerValidation

  class CustomerUseCase {
    const customerService: CustomerStore.CustomerService
    const customerProducer: CustomerProducer

    ghost predicate Valid()
      reads this, customerService, customerProducer
    {
      customerService.Valid() && customerProducer.Valid()
    }

    constructor (customerService: CustomerStore.CustomerService, customerProducer: CustomerProducer)
      requires customerService.Valid() && customerProducer.Valid()
      ensures Valid()
      ensures this.customerService == customerService && this.customerProducer == customerProducer
    {
      this.customerService := customerService;
      this.customerProducer := customerProducer;
    }

    /** `create`: validate, save, publish Created, return the saved projection.
        A refused request stores nothing and publishes nothing. */
    method Create(request: CustomerRequest) returns (r: Result<CustomerResponse>)
      requires Valid()
      modifies customerService, customerProducer
      ensures Valid()
      ensures CustomerValidation.ValidateOnCreate(old(customerService.customers), CustomerFromRequest(request)).Fail? ==>
        r == Err(CustomerValidation.ValidateOnCreate(old(customerService.customers), CustomerFromRequest(request)).error)
        && customerService.customers == old(customerService.customers)
        && customerProducer.messages == old(customerProducer.messages)
      ensures CustomerValidation.ValidateOnCreate(old(customerService.customers), CustomerFromRequest(request)) == Pass ==>
        r.Ok? && r.value.id.Some? && r.value.id.value !in old(customerService.customers)
        && r.value == CustomerToResponse(CustomerFromRequest(request).(id := r.value.id))
        && customerService.customers == old(customerService.customers)[r.value.id.value := CustomerFromRequest(request).(id := r.value.id)]
        && customerProducer.messages == old(customerProducer.messages) + [Message(EXCHANGE, CREATE_KEY, Created(
             CustomerCreatedEvent(r.value.id.value, request.name, request.lastName, request.email, request.password)))]
      ensures CustomerValidation.DistinctContacts(old(customerService.customers)) ==>
        CustomerValidation.DistinctContacts(customerService.customers)
    {
      var customer := CustomerFromRequest(request);
      var verdict := CustomerValidation.ValidateOnCreate(customerService.customers, customer);
      if verdict.Fail? {
        return Err(verdict.error);
      }
      ghost var before := customerService.customers;
      var saved := customerService.Save(customer);
      if CustomerValidation.DistinctContacts(before) {
        CustomerValidation.CreateKeepsContactsDistinct(before, customer, saved.id.value);
      }
      customerProducer.PublishCustomerCreated(
        CustomerCreatedEvent(saved.id.value, saved.name, saved.lastName, request.email, request.password));
      r := Ok(CustomerToResponse(saved));
    }

    /** `edit`: look up, then validate, then overwrite the four update fields,
        save and publish Updated. An unknown id is reported before any CPF clash. */
    method Edit(customerId: Id, update: CustomerUpdate) returns (r: Result<CustomerResponse>)
      requires Valid()
      modifies customerService, customerProducer
      ensures Valid()
      ensures customerId !in old(customerService.customers) ==>
        r == Err(CustomerStore.CustomerNotFound(customerId))
        && customerService.customers == old(customerService.customers)
        && customerProducer.messages == old(customerProducer.messages)
      ensures (customerId in old(customerService.customers)
        && CustomerValidation.ValidateOnUpdate(old(customerService.customers), customerId, update).Fail?) ==>
        r == Err(CustomerValidation.ValidateOnUpdate(old(customerService.customers), customerId, update).error)
        && customerService.customers == old(customerService.customers)
        && customerProducer.messages == old(customerProducer.messages)
      ensures (customerId in old(customerService.customers)
        && CustomerValidation.ValidateOnUpdate(old(customerService.customers), customerId, update) == Pass) ==>
        var edited := ApplyCustomerUpdate(old(customerService.customers)[customerId], update);
        r == Ok(CustomerToResponse(edited))
        && customerService.customers == old(customerService.customers)[customerId := edited]
        && customerProducer.messages == old(customerProducer.messages) + [Message(EXCHANGE, UPDATE_KEY, Updated(
             CustomerUpdatedEvent(customerId, update.name, update.lastName)))]
      ensures CustomerValidation.DistinctContacts(old(customerService.customers)) ==>
        CustomerValidation.DistinctContacts(customerService.customers)
    {
      var found := customerService.FindById(customerId);
      if found.Err? {
        return Err(found.error);
      }
      var verdict := CustomerValidation.ValidateOnUpdate(customerService.customers, customerId, update);
      if verdict.Fail? {
        return Err(verdict.error);
      }
      var edited := ApplyCustomerUpdate(found.value, update);
      if CustomerValidation.DistinctContacts(customerService.customers) {
        CustomerValidation.EditKeepsContactsDistinct(customerService.customers, customerId, update);
      }
      var saved := customerService.Save(edited);
      customerProducer.PublishCustomerUpdated(CustomerUpdatedEvent(saved.id.value, saved.name, saved.lastName));
      r := Ok(CustomerToResponse(saved));
    }

    /** `deleteLoggedCustomer`: resolve the subject to its one customer, then delete it. */
    method DeleteLoggedCustomer(subject: string) returns (o: Outcome)
      requires Valid()
      modifies customerService, customerProducer
      ensures Valid()
      ensures !CustomerStore.HasKeycloakUser(old(customerService.customers), subject) ==>
        o == Fail(CustomerStore.KeycloakUserNotFound(subject))
        && customerService.customers == old(customerService.customers)
        && customerProducer.messages == old(customerProducer.messages)
      ensures CustomerStore.HasKeycloakUser(old(customerService.customers), subject)
              && !CustomerStore.HeldByOneCustomer(old(customerService.customers), subject) ==>
        o == Fail(NonUniqueResult)
        && customerService.customers == old(customerService.customers)
        && customerProducer.messages == old(customerProducer.messages)
      ensures forall customerId :: CustomerStore.SoleKeycloakUser(old(customerService.customers), subject, customerId) ==>
        o == Pass
        && DeletedAndAnnounced(old(customerService.customers), customerService.customers,
             old(customerProducer.messages), customerProducer.messages, customerId)
    {
      var logged := customerService.FindByKeycloakUserId(subject);
      if logged.Err? {
        return Fail(logged.error);
      }
      PerformCustomerDeletion(logged.value);
      o := Pass;
    }

    /** `delete`: look up by id, then delete. */
    method Delete(customerId: Id) returns (o: Outcome)
      requires Valid()
      modifies customerService, customerProducer
      ensures Valid()
      ensures customerId !in old(customerService.customers) ==>
        o == Fail(CustomerStore.CustomerNotFound(customerId))
        && customerService.customers == old(customerService.customers)
        && customerProducer.messages == old(customerProducer.messages)
      ensures customerId in old(customerService.customers) ==>
        o == Pass
        && DeletedAndAnnounced(old(customerService.customers), customerService.customers,
                   old(customerProducer.messages), customerProducer.messages, customerId)
    {
      var found := customerService.FindById(customerId);
      if found.Err? {
        return Fail(found.error);
      }
      PerformCustomerDeletion(found.value);
      o := Pass;
    }

    /** `performCustomerDeletion`: remove the row, then publish Deleted with its id. */
    method PerformCustomerDeletion(customer: Customer)
      requires Valid()
      requires customer.id.Some? && customer.id.value in customerService.customers
      modifies customerService, customerProducer
      ensures Valid()
      ensures DeletedAndAnnounced(old(customerService.customers), customerService.customers,
                      old(customerProducer.messages), customerProducer.messages, customer.id.value)
    {
      customerService.Delete(customer);
      customerProducer.PublishCustomerDeleted(CustomerDeletedEvent(customer.id.value));
    }

    /** The corrected deletion: the Deleted event also carries the identity
        reference, read before the row goes. */
    method DeleteWithReference(customerId: Id) returns (o: Outcome)
      requires Valid()
      modifies customerService, customerProducer
      ensures Valid()
      ensures customerId !in old(customerService.customers) ==>
        o == Fail(CustomerStore.CustomerNotFound(customerId))
        && customerService.customers == old(customerService.customers)
        && customerProducer.messages == old(customerProducer.messages)
      ensures customerId in old(customerService.customers) ==>
        o == Pass
        && customerService.customers == old(customerService.customers) - {customerId}
        && customerProducer.messages == old(customerProducer.messages) + [Message(EXCHANGE, DELETE_KEY, DeletedWithReference(
             CustomerDeletedWithReferenceEvent(customerId, old(customerService.customers)[customerId].keycloakUserId)))]
    {
      var found := customerService.FindById(customerId);
      if found.Err? {
        return Fail(found.error);
      }
      customerService.Delete(found.value);
      customerProducer.PublishCustomerDeletedWithReference(
        CustomerDeletedWithReferenceEvent(customerId, found.value.keycloakUserId));
      o := Pass;
    }
  }

  /** A deletion of `customerId`: its row removed, every other row kept, and
      exactly one Deleted event carrying only the id appended. */
  predicate DeletedAndAnnounced(customers: map<Id, Customer>, customers': map<Id, Customer>,
                                messages: seq<Message>, messages': seq<Message>, customerId: Id)
  {
    customers' == customers - {customerId}
    && messages' == messages + [Message(EXCHANGE, DELETE_KEY, Deleted(CustomerDeletedEvent(customerId)))]
  }
}
