/** The entities, request/response records and lifecycle events of the
    customer service, and the field copies the MapStruct mappers perform. */
module Domain {
  import opened Common

  datatype Date = Date(year: int, month: int, day: int)

  /** A customer record. `id` is null until the store assigns one, and
      `keycloakUserId` is null until the identity provider has a matching user. */
  datatype Customer = Customer(
    id: Option<Id>,
    name: Text,
    lastName: Text,
    keycloakUserId: Text,
    email: Text,
    cpf: Text,
    cep: Text,
    birthDate: Option<Date>)

  /** An address record and the customer that owns it (`@ManyToOne customer`). */
  datatype Address = Address(
    id: Option<Id>,
    contactName: Text,
    contactLastName: Text,
    contactPhone: Text,
    address: Text,
    number: Text,
    neighborhood: Text,
    city: Text,
    state: Text,
    cep: Text,
    complement: Text,
    customer: Option<Customer>)

  /** The owner's id, null when there is no owner or the owner has no id. */
  function OwnerId(a: Address): Option<Id> {
    if a.customer.None? then None else a.customer.value.id
  }

  datatype CustomerRequest = CustomerRequest(
    name: Text,
    lastName: Text,
    email: Text,
    password: Text,
    cpf: Text,
    cep: Text,
    birthDate: Option<Date>)

  datatype CustomerUpdate = CustomerUpdate(
    name: Text,
    lastName: Text,
    cpf: Text,
    birthDate: Option<Date>)

  datatype AddressRequest = AddressRequest(
    contactName: Text,
    contactLastName: Text,
    contactPhone: Text,
    address: Text,
    number: Text,
    neighborhood: Text,
    city: Text,
    state: Text,
    cep: Text,
    complement: Text)

  datatype CustomerResponse = CustomerResponse(
    id: Option<Id>,
    name: Text,
    lastName: Text,
    email: Text,
    cpf: Text,
    cep: Text,
    birthDate: Option<Date>)

  datatype AddressResponse = AddressResponse(
    id: Option<Id>,
    contactName: Text,
    contactLastName: Text,
    contactPhone: Text,
    address: Text,
    number: Text,
    neighborhood: Text,
    city: Text,
    state: Text,
    cep: Text,
    complement: Text)

  // Lifecycle events published to the broker.
  datatype CustomerCreatedEvent = CustomerCreatedEvent(customerId: Id, name: Text, lastName: Text, email: Text, password: Text)
  datatype CustomerUpdatedEvent = CustomerUpdatedEvent(customerId: Id, name: Text, lastName: Text)
  datatype CustomerDeletedEvent = CustomerDeletedEvent(customerId: Id)
  /** The corrected Deleted event: it carries the identity reference read before the record is removed. */
  datatype CustomerDeletedWithReferenceEvent = CustomerDeletedWithReferenceEvent(customerId: Id, keycloakUserId: Text)

  // CustomerMapper: a new entity has no id and no identity reference; the password is not stored.
  function CustomerFromRequest(r: CustomerRequest): (c: Customer)
    ensures c.id.None? && c.keycloakUserId.None?
    ensures CustomerToResponse(c) == CustomerResponse(None, r.name, r.lastName, r.email, r.cpf, r.cep, r.birthDate)
  {
    Customer(None, r.name, r.lastName, None, r.email, r.cpf, r.cep, r.birthDate)
  }

  /** The projection drops only the identity reference: the entity is the
      response's fields plus that reference. */
  function CustomerToResponse(c: Customer): (resp: CustomerResponse)
    ensures c == Customer(resp.id, resp.name, resp.lastName, c.keycloakUserId, resp.email, resp.cpf, resp.cep, resp.birthDate)
  {
    CustomerResponse(c.id, c.name, c.lastName, c.email, c.cpf, c.cep, c.birthDate)
  }

  /** `customerMapper.edit`: the update's four fields overwrite the entity's. */
  function ApplyCustomerUpdate(c: Customer, u: CustomerUpdate): (edited: Customer)
    ensures edited.id == c.id && edited.email == c.email && edited.cep == c.cep
    ensures edited.keycloakUserId == c.keycloakUserId
    ensures edited.name == u.name && edited.lastName == u.lastName
    ensures edited.cpf == u.cpf && edited.birthDate == u.birthDate
  {
    c.(name := u.name, lastName := u.lastName, cpf := u.cpf, birthDate := u.birthDate)
  }

  // AddressMapper: a new entity has no id and no owner.
  function AddressFromRequest(r: AddressRequest): (a: Address)
    ensures a.id.None? && a.customer.None?
    ensures AddressToResponse(a) == AddressResponse(None, r.contactName, r.contactLastName, r.contactPhone, r.address,
                                                    r.number, r.neighborhood, r.city, r.state, r.cep, r.complement)
  {
    Address(None, r.contactName, r.contactLastName, r.contactPhone, r.address, r.number,
            r.neighborhood, r.city, r.state, r.cep, r.complement, None)
  }

  /** The projection drops only the owner. */
  function AddressToResponse(a: Address): (resp: AddressResponse)
    ensures a == Address(resp.id, resp.contactName, resp.contactLastName, resp.contactPhone, resp.address, resp.number,
                         resp.neighborhood, resp.city, resp.state, resp.cep, resp.complement, a.customer)
  {
    AddressResponse(a.id, a.contactName, a.contactLastName, a.contactPhone, a.address, a.number,
                    a.neighborhood, a.city, a.state, a.cep, a.complement)
  }

  /** `addressMapper.edit`: the request's ten fields overwrite the entity's; id and owner stay. */
  function ApplyAddressRequest(a: Address, r: AddressRequest): (edited: Address)
    ensures edited.id == a.id && edited.customer == a.customer
    ensures AddressToResponse(edited) == AddressToResponse(AddressFromRequest(r).(id := a.id))
  {
    a.(contactName := r.contactName, contactLastName := r.contactLastName,
       contactPhone := r.contactPhone, address := r.address, number := r.number,
       neighborhood := r.neighborhood, city := r.city, state := r.state, cep := r.cep,
       complement := r.complement)
  }
}
