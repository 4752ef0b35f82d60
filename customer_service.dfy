/** CustomerServiceImpl over an in-memory customer repository. */
module CustomerStore {
  import opened Common
  import opened Domain

  function CustomerNotFound(customerId: Id): Error {
    RecordNotFound("Customer not found: " + LongString(customerId))
  }

  function KeycloakUserNotFound(keycloakUserId: string): Error {
    RecordNotFound("Customer with this keycloakUserId not found: " + keycloakUserId)
  }

  /** Some stored customer carries this identity reference. */
  predicate HasKeycloakUser(customers: map<Id, Customer>, keycloakUserId: string) {
    exists k :: k in customers && customers[k].keycloakUserId == Some(keycloakUserId)
  }

  /** `customerId` is the only stored customer carrying this identity reference. */
  predicate SoleKeycloakUser(customers: map<Id, Customer>, keycloakUserId: string, customerId: Id) {
    customerId in customers && customers[customerId].keycloakUserId == Some(keycloakUserId)
    && forall k :: k in customers && customers[k].keycloakUserId == Some(keycloakUserId) ==> k == customerId
  }

  /** Exactly one stored customer carries this identity reference. */
  predicate HeldByOneCustomer(customers: map<Id, Customer>, keycloakUserId: string) {
    exists k :: k in customers && SoleKeycloakUser(customers, keycloakUserId, k)
  }

  class CustomerService {
    /** The repository's rows by primary key. */
    var customers: map<Id, Customer>
    /** The next key the IDENTITY column hands out. */
    var nextId: Id

    /** Every row is stored under its own id, and every key is below `nextId`. */
    ghost predicate Valid()
      reads this
    {
      forall k :: k in customers ==> customers[k].id == Some(k) && k < nextId
    }

    constructor ()
      ensures Valid() && customers == map[] && nextId == 1
    {
      customers := map[];
      nextId := 1;
    }

    /** `save`: a customer without an id gets a fresh one; a customer with an id
        replaces (or inserts) the row under that id. Returns the stored value. */
    method Save(customer: Customer) returns (saved: Customer)
      requires Valid()
      modifies this
      ensures Valid()
      ensures saved.id.Some? && saved == customer.(id := saved.id)
      ensures customer.id.Some? ==> saved.id == customer.id
      ensures customer.id.None? ==> saved.id.value !in old(customers)
      ensures customers == old(customers)[saved.id.value := saved]
      ensures saved.id.value in old(customers) ==> nextId == old(nextId)
    {
      var key := if customer.id.Some? then customer.id.value else nextId;
      saved := customer.(id := Some(key));
      customers := customers[key := saved];
      if key >= nextId {
        nextId := key + 1;
      }
    }

    /** `findById`: the stored customer, or RecordNotFound. */
    method FindById(customerId: Id) returns (r: Result<Customer>)
      ensures customerId in customers ==> r == Ok(customers[customerId])
      ensures customerId !in customers ==> r == Err(CustomerNotFound(customerId))
    {
      if customerId in customers {
        r := Ok(customers[customerId]);
      } else {
        r := Err(CustomerNotFound(customerId));
      }
    }

    /** `findByKeycloakUserId`: the derived query returns an `Optional`, so it
        yields the one customer carrying the reference, is empty when none does
        (RecordNotFound), and throws when several do. */
    method FindByKeycloakUserId(keycloakUserId: string) returns (r: Result<Customer>)
      requires Valid()
      ensures !HasKeycloakUser(customers, keycloakUserId) ==> r == Err(KeycloakUserNotFound(keycloakUserId))
      ensures r.Ok? <==> HeldByOneCustomer(customers, keycloakUserId)
      ensures r.Ok? ==>
        r.value.id.Some? && SoleKeycloakUser(customers, keycloakUserId, r.value.id.value)
        && customers[r.value.id.value] == r.value
      ensures HasKeycloakUser(customers, keycloakUserId) && r.Err? ==> r == Err(NonUniqueResult)
    {
      if k :| k in customers && customers[k].keycloakUserId == Some(keycloakUserId) {
        if forall j :: j in customers && customers[j].keycloakUserId == Some(keycloakUserId) ==> j == k {
          r := Ok(customers[k]);
        } else {
          r := Err(NonUniqueResult);
        }
      } else {
        r := Err(KeycloakUserNotFound(keycloakUserId));
      }
    }

    /** `delete`: removes the row of that customer's id; every other row stays. */
    method Delete(customer: Customer)
      requires Valid()
      modifies this
      ensures Valid() && nextId == old(nextId)
      ensures customer.id.Some? ==> customers == old(customers) - {customer.id.value}
      ensures customer.id.None? ==> customers == old(customers)
    {
      if customer.id.Some? {
        customers := customers - {customer.id.value};
      }
    }
  }

  /** A save followed by findById of the returned id yields the saved customer. */
  method SaveThenFind(service: CustomerService, customer: Customer) returns (saved: Customer, found: Result<Customer>)
    requires service.Valid()
    modifies service
    ensures service.Valid()
    ensures saved == customer.(id := saved.id) && found == Ok(saved)
  {
    saved := service.Save(customer);
    found := service.FindById(saved.id.value);
  }
}
