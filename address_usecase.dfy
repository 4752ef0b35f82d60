/** AddressUseCaseImpl: the logged customer's addresses. The logged customer is
    resolved from the token subject passed in, through the customer store's
    `findByKeycloakUserId`. No address operation publishes anything: the class
    has no producer. */
module AddressUseCases {
  import opened Common
  import opened Domain
  import CustomerStore
  import AddressStore
  import AddressValidation

  /** The projections of the addresses the customer owns. */
  function OwnedResponses(addresses: map<Id, Address>, customerId: Id): set<AddressResponse> {
    set a | a in AddressStore.AddressesOf(addresses, customerId) :: AddressToResponse(a)
  }

  class AddressUseCase {
    const addressService: AddressStore.AddressService
    const customerService: CustomerStore.CustomerService

    ghost predicate Valid()
      reads this, addressService, customerService
    {
      addressService.Valid() && customerService.Valid() && addressService.customerService == customerService
    }

    constructor (addressService: AddressStore.AddressService, customerService: CustomerStore.CustomerService)
      requires addressService.Valid() && customerService.Valid() && addressService.customerService == customerService
      ensures Valid()
      ensures this.addressService == addressService && this.customerService == customerService
    {
      this.addressService := addressService;
      this.customerService := customerService;
    }

    /** `create`: the new address is owned by the logged customer and saved. No
        validator runs, and only the address store changes. */
    method Create(subject: string, request: AddressRequest) returns (r: Result<AddressResponse>)
      requires Valid()
      modifies addressService
      ensures Valid()
      ensures !CustomerStore.HasKeycloakUser(customerService.customers, subject) ==>
        r == Err(CustomerStore.KeycloakUserNotFound(subject))
      ensures CustomerStore.HasKeycloakUser(customerService.customers, subject)
              && !CustomerStore.HeldByOneCustomer(customerService.customers, subject) ==>
        r == Err(NonUniqueResult)
      ensures r.Err? ==> addressService.addresses == old(addressService.addresses)
      ensures forall owner :: CustomerStore.SoleKeycloakUser(customerService.customers, subject, owner) ==>
        r.Ok? && r.value.id.Some? && r.value.id.value !in old(addressService.addresses)
        && var stored := AddressFromRequest(request).(id := r.value.id, customer := Some(customerService.customers[owner]));
           r.value == AddressToResponse(stored)
           && addressService.addresses == old(addressService.addresses)[r.value.id.value := stored]
    {
      var address := AddressFromRequest(request);
      var logged := customerService.FindByKeycloakUserId(subject);
      if logged.Err? {
        return Err(logged.error);
      }
      var saved := addressService.Save(address.(customer := Some(logged.value)));
      r := Ok(AddressToResponse(saved));
    }

    /** `getAddressesLoggedCustomer`: the projections of exactly the addresses the
        logged customer owns. Nothing changes. */
    method GetAddressesLoggedCustomer(subject: string) returns (r: Result<set<AddressResponse>>)
      requires Valid()
      ensures !CustomerStore.HasKeycloakUser(customerService.customers, subject) ==>
        r == Err(CustomerStore.KeycloakUserNotFound(subject))
      ensures CustomerStore.HasKeycloakUser(customerService.customers, subject)
              && !CustomerStore.HeldByOneCustomer(customerService.customers, subject) ==>
        r == Err(NonUniqueResult)
      ensures forall owner :: CustomerStore.SoleKeycloakUser(customerService.customers, subject, owner) ==>
        r == Ok(OwnedResponses(addressService.addresses, owner))
    {
      var logged := customerService.FindByKeycloakUserId(subject);
      if logged.Err? {
        return Err(logged.error);
      }
      var owned := addressService.GetAddressesLoggedCustomer(logged.value.id.value);
      if owned.Err? {
        // the logged customer is stored, so the store lookup cannot fail
        assert false;
        return Err(NullReference);
      }
      r := Ok(set a | a in owned.value :: AddressToResponse(a));
      assert owned.value == AddressStore.AddressesOf(addressService.addresses, logged.value.id.value);
    }

    /** `edit`: find, then validate ownership, then overwrite the ten request fields
        and save. Any failure leaves the stored addresses as they were. */
    method Edit(subject: string, addressId: Id, request: AddressRequest) returns (r: Result<AddressResponse>)
      requires Valid()
      modifies addressService
      ensures Valid()
      ensures addressId !in old(addressService.addresses) ==>
        r == Err(AddressStore.AddressNotFound(addressId))
      ensures addressId in old(addressService.addresses) ==>
        var address := old(addressService.addresses)[addressId];
        var verdict := UpdateOrDeleteVerdict(customerService.customers, subject, address);
        (verdict.Fail? ==> r == Err(verdict.error))
        && (verdict == Pass ==>
              r == Ok(AddressToResponse(ApplyAddressRequest(address, request)))
              && addressService.addresses == old(addressService.addresses)[addressId := ApplyAddressRequest(address, request)])
      ensures r.Err? ==> addressService.addresses == old(addressService.addresses)
    {
      var found := addressService.FindById(addressId);
      if found.Err? {
        return Err(found.error);
      }
      var address := found.value;
      var logged := customerService.FindByKeycloakUserId(subject);
      var verdict := AddressValidation.ValidateOnUpdateAndDelete(customerService.customers, address, logged);
      assert verdict == UpdateOrDeleteVerdict(customerService.customers, subject, address);
      if verdict.Fail? {
        return Err(verdict.error);
      }
      var saved := addressService.Save(ApplyAddressRequest(address, request));
      r := Ok(AddressToResponse(saved));
    }

    /** `delete`: find, then validate ownership, then remove. Any failure removes nothing. */
    method Delete(subject: string, addressId: Id) returns (o: Outcome)
      requires Valid()
      modifies addressService
      ensures Valid()
      ensures addressId !in old(addressService.addresses) ==>
        o == Fail(AddressStore.AddressNotFound(addressId))
      ensures addressId in old(addressService.addresses) ==>
        o == UpdateOrDeleteVerdict(customerService.customers, subject, old(addressService.addresses)[addressId])
      ensures o == Pass ==> addressService.addresses == old(addressService.addresses) - {addressId}
      ensures o.Fail? ==> addressService.addresses == old(addressService.addresses)
    {
      var found := addressService.FindById(addressId);
      if found.Err? {
        return Fail(found.error);
      }
      var address := found.value;
      var logged := customerService.FindByKeycloakUserId(subject);
      var verdict := AddressValidation.ValidateOnUpdateAndDelete(customerService.customers, address, logged);
      assert verdict == UpdateOrDeleteVerdict(customerService.customers, subject, address);
      if verdict.Fail? {
        return verdict;
      }
      addressService.Delete(address);
      o := Pass;
    }
  }

  /** How an update or a delete of a stored `address` on behalf of `subject` is
      decided: a missing owner first, then the resolution of the subject (none,
      or several customers carrying it), then ownership. */
  function UpdateOrDeleteVerdict(customers: map<Id, Customer>, subject: string, address: Address): (o: Outcome)
    ensures o == Pass <==> OwnerId(address).Some? && CustomerStore.SoleKeycloakUser(customers, subject, OwnerId(address).value)
  {
    if AddressValidation.CustomerDoesNotExist(customers, address.customer) then
      Fail(AddressValidation.OwnerNotFound(OwnerId(address)))
    else if !CustomerStore.HasKeycloakUser(customers, subject) then
      Fail(CustomerStore.KeycloakUserNotFound(subject))
    else if !CustomerStore.HeldByOneCustomer(customers, subject) then
      Fail(NonUniqueResult)
    else if !CustomerStore.SoleKeycloakUser(customers, subject, OwnerId(address).value) then
      Fail(BusinessRule(AddressValidation.PERMISSION_DENIED))
    else
      Pass
  }
}
