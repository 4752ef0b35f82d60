/** AddressValidator: the owner must exist, and for an update or a delete the
    owner must be the logged customer. The logged customer is passed in as the
    result of resolving the caller's token subject (`authService.getLoggedCustomer()`,
    which either returns a stored customer or throws). */
module AddressValidation {
  import opened Common
  import opened Domain

  const PERMISSION_DENIED := "You don\U{2019}t have permission to manage this address"

  function OwnerNotFound(ownerId: Option<Id>): Error {
    RecordNotFound("Customer not found: " + NullableLongString(ownerId))
  }

  /** `customerDoesNotExist`: no owner, an owner without an id, or an id the repository lacks. */
  predicate CustomerDoesNotExist(customers: map<Id, Customer>, customer: Option<Customer>)
    ensures !CustomerDoesNotExist(customers, customer) <==>
      (exists k :: k in customers && customer.Some? && customer.value.id == Some(k))
  {
    customer.None? || customer.value.id.None?
    || (var k := customer.value.id.value; assert customer.value.id == Some(k); k !in customers)
  }

  /** `addressBelongsToLoggedCustomer` for a logged customer that has an id. */
  predicate AddressBelongsToLoggedCustomer(logged: Option<Customer>, address: Address)
    ensures AddressBelongsToLoggedCustomer(logged, address) <==>
      (logged.Some? && OwnerId(address).Some? && logged.value.id == OwnerId(address))
  {
    logged.Some? && address.customer.Some? && logged.value.id.Some?
    && logged.value.id == address.customer.value.id
  }

  /** `validateOnCreate` as written: when the owner is null, building the log
      line dereferences it, so a NullPointerException escapes instead of RecordNotFound. */
  function ValidateOnCreateAsWritten(customers: map<Id, Customer>, address: Address): (o: Outcome)
    ensures o.Fail? <==> CustomerDoesNotExist(customers, address.customer)
    ensures address.customer.None? ==> o == Fail(NullReference)
    ensures address.customer.Some? ==> o == ValidateOnCreate(customers, address)
  {
    if CustomerDoesNotExist(customers, address.customer) then
      if address.customer.None? then Fail(NullReference)
      else Fail(OwnerNotFound(address.customer.value.id))
    else Pass
  }

  /** `validateOnCreate` with the null owner guarded as `validateOnUpdateAndDelete` guards it. */
  function ValidateOnCreate(customers: map<Id, Customer>, address: Address): (o: Outcome)
    ensures o.Fail? <==> CustomerDoesNotExist(customers, address.customer)
    ensures o.Fail? ==> o == Fail(OwnerNotFound(OwnerId(address)))
  {
    if CustomerDoesNotExist(customers, address.customer) then Fail(OwnerNotFound(OwnerId(address)))
    else Pass
  }

  /** `validateOnUpdateAndDelete`: existence first, then ownership. A failure to
      resolve the logged customer propagates; a logged customer without an id
      would make `customer.getId().equals(...)` throw. */
  function ValidateOnUpdateAndDelete(customers: map<Id, Customer>, address: Address, logged: Result<Customer>): (o: Outcome)
    ensures o == Pass <==>
      OwnerId(address).Some? && OwnerId(address).value in customers
      && logged.Ok? && logged.value.id == OwnerId(address)
    ensures CustomerDoesNotExist(customers, address.customer) ==> o == Fail(OwnerNotFound(OwnerId(address)))
    ensures !CustomerDoesNotExist(customers, address.customer) && logged.Err? ==> o == Fail(logged.error)
    ensures (!CustomerDoesNotExist(customers, address.customer) && logged.Ok? && logged.value.id.Some?
             && logged.value.id != OwnerId(address)) ==> o == Fail(BusinessRule(PERMISSION_DENIED))
  {
    if CustomerDoesNotExist(customers, address.customer) then Fail(OwnerNotFound(OwnerId(address)))
    else if logged.Err? then Fail(logged.error)
    else if logged.value.id.None? then Fail(NullReference)
    else if !AddressBelongsToLoggedCustomer(Some(logged.value), address) then Fail(BusinessRule(PERMISSION_DENIED))
    else Pass
  }

  /** A null owner, or an owner with a null id, counts as non-existent. */
  lemma NullOwnerDoesNotExist(customers: map<Id, Customer>, owner: Customer)
    requires owner.id.None?
    ensures CustomerDoesNotExist(customers, None)
    ensures CustomerDoesNotExist(customers, Some(owner))
  {
  }

  /** A null logged customer owns nothing. */
  lemma NullLoggedCustomerDenied(address: Address)
    ensures !AddressBelongsToLoggedCustomer(None, address)
  {
  }

  /** Existence is checked before ownership: a missing owner is RecordNotFound whoever is logged in. */
  lemma ExistenceBeforeOwnership(customers: map<Id, Customer>, address: Address, logged: Result<Customer>)
    requires CustomerDoesNotExist(customers, address.customer)
    ensures ValidateOnUpdateAndDelete(customers, address, logged) == Fail(OwnerNotFound(OwnerId(address)))
  {
  }

  /** An existing owner that is not the logged customer is refused with BusinessRule. */
  lemma NonOwnerDenied(customers: map<Id, Customer>, address: Address, logged: Customer)
    requires !CustomerDoesNotExist(customers, address.customer)
    requires logged.id.Some? && logged.id != OwnerId(address)
    ensures ValidateOnUpdateAndDelete(customers, address, Ok(logged)) == Fail(BusinessRule(PERMISSION_DENIED))
  {
  }

  /** Finding: an address with no owner makes the original `validateOnCreate`
      throw a NullPointerException rather than RecordNotFound. */
  lemma ValidateOnCreateNullOwnerThrows(customers: map<Id, Customer>, address: Address)
    requires address.customer.None?
    ensures ValidateOnCreateAsWritten(customers, address) == Fail(NullReference)
    ensures ValidateOnCreate(customers, address) == Fail(RecordNotFound("Customer not found: null"))
  {
    assert "Customer not found: " + "null" == "Customer not found: null";
  }

  /** The corrected `validateOnCreate` fails, always with RecordNotFound, exactly
      when the owner does not exist, and agrees with the original whenever an owner is set. */
  lemma ValidateOnCreateFailsIffOwnerMissing(customers: map<Id, Customer>, address: Address)
    ensures ValidateOnCreate(customers, address).Fail? <==> CustomerDoesNotExist(customers, address.customer)
    ensures ValidateOnCreate(customers, address).Fail? ==> ValidateOnCreate(customers, address).error.RecordNotFound?
    ensures address.customer.Some? ==> ValidateOnCreate(customers, address) == ValidateOnCreateAsWritten(customers, address)
  {
  }
}
