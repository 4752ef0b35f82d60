/** AddressServiceImpl over an in-memory address repository; it reads the
    customer repository only to test that a customer id exists. */
module AddressStore {
  import opened Common
  import opened Domain
  import CustomerStore

  function AddressNotFound(addressId: Id): Error {
    RecordNotFound("Address not found: " + LongString(addressId))
  }

  /** `findByCustomerId`: the stored addresses whose owner has that id. */
  function AddressesOf(addresses: map<Id, Address>, customerId: Id): set<Address> {
    set a | a in addresses.Values && OwnerId(a) == Some(customerId)
  }

  class AddressService {
    /** The customer repository, read through `existsById`. */
    const customerService: CustomerStore.CustomerService
    var addresses: map<Id, Address>
    var nextId: Id

    ghost predicate Valid()
      reads this
    {
      forall k :: k in addresses ==> addresses[k].id == Some(k) && k < nextId
    }

    constructor (customerService: CustomerStore.CustomerService)
      ensures Valid() && this.customerService == customerService
      ensures addresses == map[] && nextId == 1
    {
      this.customerService := customerService;
      addresses := map[];
      nextId := 1;
    }

    /** `save`: an address without an id gets a fresh one; one with an id
        replaces (or inserts) the row under that id. Returns the stored value. */
    method Save(address: Address) returns (saved: Address)
      requires Valid()
      modifies this
      ensures Valid()
      ensures saved.id.Some? && saved == address.(id := saved.id)
      ensures address.id.Some? ==> saved.id == address.id
      ensures address.id.None? ==> saved.id.value !in old(addresses)
      ensures addresses == old(addresses)[saved.id.value := saved]
    {
      var key := if address.id.Some? then address.id.value else nextId;
      saved := address.(id := Some(key));
      addresses := addresses[key := saved];
      if key >= nextId {
        nextId := key + 1;
      }
    }

    /** `findById`: the stored address, or RecordNotFound. */
    method FindById(addressId: Id) returns (r: Result<Address>)
      ensures addressId in addresses ==> r == Ok(addresses[addressId])
      ensures addressId !in addresses ==> r == Err(AddressNotFound(addressId))
    {
      if addressId in addresses {
        r := Ok(addresses[addressId]);
      } else {
        r := Err(AddressNotFound(addressId));
      }
    }

    /** `getAddressesLoggedCustomer`: RecordNotFound when the customer id is not
        in the customer repository, otherwise exactly the addresses it owns. */
    method GetAddressesLoggedCustomer(customerId: Id) returns (r: Result<set<Address>>)
      ensures customerId !in customerService.customers ==> r == Err(CustomerStore.CustomerNotFound(customerId))
      ensures customerId in customerService.customers ==>
        r.Ok? && forall a :: a in r.value <==> a in addresses.Values && OwnerId(a) == Some(customerId)
    {
      if customerId !in customerService.customers {
        r := Err(CustomerStore.CustomerNotFound(customerId));
      } else {
        r := Ok(AddressesOf(addresses, customerId));
      }
    }

    /** `delete`: removes the row of that address's id; every other row stays. */
    method Delete(address: Address)
      requires Valid()
      modifies this
      ensures Valid()
      ensures address.id.Some? ==> addresses == old(addresses) - {address.id.value}
      ensures address.id.None? ==> addresses == old(addresses)
    {
      if address.id.Some? {
        addresses := addresses - {address.id.value};
      }
    }
  }
}
