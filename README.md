# customer-service, modelled in Dafny

This is a model of the core of a Spring Boot customer service. The service
stores customers and their delivery addresses. It keeps a Keycloak realm in
step with the customer table, using lifecycle events sent over RabbitMQ. The
model covers these parts:

- Stores. `CustomerStore` and `AddressStore` are classes over a `map` from id to entity. Saving assigns an id to a new row and overwrites a known one. Lookups fail with `RecordNotFound`.
- Uniqueness gates. `CustomerValidation` checks that e-mail and CPF are unique on create, and that the CPF is not held by another customer on update.
- Ownership gate. `AddressValidation` checks that an address's owner exists and is the logged customer.
- Bean-validation constraints. `RequestValidation` models the constraints on the three request records. The `ValidationOrder` group sequence runs the "not blank" group first, and the other group only when the first reports nothing.
- Broker topology. `RabbitTopology` models one direct exchange, three durable queues with dead-letter routing, their three DLQs, and the six bindings.
- Producer and consumer. The `Messaging` producer appends one message per publish to a log. The `Reconciliation` consumer has three handlers that create, edit and delete the linked identity user.
- Use cases. `CustomerUseCases` and `AddressUseCases` model the application layer. It validates before it writes, and it publishes one event after each successful customer write.
- Error responses. `ErrorResponses` models how the exception handler maps every failure to an HTTP status and a body.
- End-to-end delete. `DeletionPipeline` chains a delete to the delivery of its event, both as written and corrected.

Exceptions are values. Each Java exception is an `Error`:
- `RecordNotFound` for `RecordNotFoundException`;
- `DuplicateRecord` for `DuplicateRecordException`;
- `BusinessRule` for `BusinessRuleException`;
- `KeycloakFailure` for `KeycloakException`;
- `NullReference` for a `NullPointerException`;
- `NonUniqueResult` for the `IncorrectResultSizeDataAccessException` a single-row query throws when several rows match.

A method that returns a value yields a `Result`, and a `void` method yields an `Outcome`. A Java `null` is `None` in an `Option`. Each message the source builds with `"..." + id` is spelled out, including Java's rendering of a `long` and of `null`.

The logged customer is resolved from the JWT subject. Here that subject is a `string` parameter of each use case.

The identity provider is a class holding a map of users and a `reachable` flag. It stands in for the Keycloak admin client.

## Model

| member | source | states |
|---|---|---|
| Common.NatStringRoundTrip | src/main/java/io/github/gabrielvelosoo/customerservice/domain/service/customer/CustomerServiceImpl.java:31 | the decimal rendering of an id used in "not found" messages parses back to the id |
| Common.NatStringDigits | src/main/java/io/github/gabrielvelosoo/customerservice/domain/service/customer/CustomerServiceImpl.java:31 | a rendered id is non-empty and made only of decimal digits |
| Common.LongStringSign | src/main/java/io/github/gabrielvelosoo/customerservice/domain/service/customer/CustomerServiceImpl.java:31 | a rendered `long` starts with '-' exactly when it is negative |
| Common.LongStringInjective | src/main/java/io/github/gabrielvelosoo/customerservice/domain/service/customer/CustomerServiceImpl.java:31 | two ids with the same rendering are equal, so a "Customer not found: " message names one id |
| Domain.ApplyCustomerUpdate | src/main/java/io/github/gabrielvelosoo/customerservice/application/usecase/customer/CustomerUseCaseImpl.java:64 | the edit overwrites name, last name, CPF and birth date from the update; id, e-mail, cep and identity reference are kept |
| Domain.ApplyAddressRequest | src/main/java/io/github/gabrielvelosoo/customerservice/application/usecase/address/AddressUseCaseImpl.java:64 | the edit keeps the address id and owner; every projected field is the request's |
| Domain.CustomerFromRequest | src/main/java/io/github/gabrielvelosoo/customerservice/application/mapper/CustomerMapper.java:11 | a new entity has no id and no identity reference, and its projection is the request's fields without the password |
| Domain.CustomerToResponse | src/main/java/io/github/gabrielvelosoo/customerservice/application/mapper/CustomerMapper.java:12 | the response is the entity minus its identity reference: every other field is copied |
| Domain.AddressFromRequest | src/main/java/io/github/gabrielvelosoo/customerservice/application/mapper/AddressMapper.java:11 | a new address has no id and no owner, and its projection is exactly the request's ten fields |
| Domain.AddressToResponse | src/main/java/io/github/gabrielvelosoo/customerservice/application/mapper/AddressMapper.java:12 | the response is the address minus its owner: every other field is copied |
| CustomerStore.CustomerService.Save | src/main/java/io/github/gabrielvelosoo/customerservice/domain/service/customer/CustomerServiceImpl.java:20-23 | a customer without an id gets an id not in use before, and a customer with an id overwrites that row; the saved entity is returned and no other row changes |
| CustomerStore.CustomerService.FindById | src/main/java/io/github/gabrielvelosoo/customerservice/domain/service/customer/CustomerServiceImpl.java:26-33 | returns the stored customer, or RecordNotFound "Customer not found: <id>" when the id is absent |
| CustomerStore.CustomerService.FindByKeycloakUserId | src/main/java/io/github/gabrielvelosoo/customerservice/domain/service/customer/CustomerServiceImpl.java:36-43 | returns the one customer holding that identity reference; RecordNotFound with the reference in the message when none holds it, NonUniqueResult when several do |
| CustomerStore.CustomerService.Delete | src/main/java/io/github/gabrielvelosoo/customerservice/domain/service/customer/CustomerServiceImpl.java:46-49 | removes the customer's row and no other |
| CustomerStore.SaveThenFind | src/main/java/io/github/gabrielvelosoo/customerservice/domain/service/customer/CustomerServiceImpl.java:20-33 | a saved customer is found by its returned id with the same contents |
| AddressStore.AddressService.Save | src/main/java/io/github/gabrielvelosoo/customerservice/domain/service/address/AddressServiceImpl.java:24-27 | a new address gets an unused id, and a known one is overwritten; no other row changes |
| AddressStore.AddressService.FindById | src/main/java/io/github/gabrielvelosoo/customerservice/domain/service/address/AddressServiceImpl.java:30-37 | returns the stored address, or RecordNotFound "Address not found: <id>" |
| AddressStore.AddressService.GetAddressesLoggedCustomer | src/main/java/io/github/gabrielvelosoo/customerservice/domain/service/address/AddressServiceImpl.java:40-47 | an unknown customer id is RecordNotFound; otherwise the result is exactly the addresses whose owner has that id |
| AddressStore.AddressService.Delete | src/main/java/io/github/gabrielvelosoo/customerservice/domain/service/address/AddressServiceImpl.java:50-53 | removes the address's row and no other |
| CustomerValidation.IsPresent | src/main/java/io/github/gabrielvelosoo/customerservice/application/validator/custom/CustomerValidator.java:40-50 | a single-row lookup is empty for no match, present for one match, and NonUniqueResult for several |
| CustomerValidation.SameHoldersSameAnswer | src/main/java/io/github/gabrielvelosoo/customerservice/application/validator/custom/CustomerValidator.java:40-50 | the lookup's answer depends only on which rows match |
| CustomerValidation.EmailCheckedFirst | src/main/java/io/github/gabrielvelosoo/customerservice/application/validator/custom/CustomerValidator.java:20-25 | a taken e-mail decides the verdict whatever the CPF is: the e-mail message when one customer holds it, NonUniqueResult when several do |
| CustomerValidation.CpfCheckedWhenEmailFree | src/main/java/io/github/gabrielvelosoo/customerservice/application/validator/custom/CustomerValidator.java:26-29 | with a free e-mail, a taken CPF is refused with the CPF message when one customer holds it, and with NonUniqueResult when several do |
| CustomerValidation.ValidateOnCreate | src/main/java/io/github/gabrielvelosoo/customerservice/application/validator/custom/CustomerValidator.java:20-30 | creation passes exactly when no stored customer has the e-mail or the CPF; the e-mail message is given exactly when one customer holds the e-mail, and the CPF message exactly when the e-mail is free and one customer holds the CPF; NonUniqueResult is given exactly when the first lookup that matches matches several rows |
| CustomerValidation.ValidateOnUpdate | src/main/java/io/github/gabrielvelosoo/customerservice/application/validator/custom/CustomerValidator.java:32-38 | an update passes exactly when no customer other than the edited one holds the new CPF; one other holder gives DuplicateRecord with the CPF message, several give NonUniqueResult |
| CustomerValidation.CreateKeepsContactsDistinct | src/main/java/io/github/gabrielvelosoo/customerservice/application/validator/custom/CustomerValidator.java:20-30 | storing a customer admitted by the create gate keeps e-mails and CPFs unique across the table |
| CustomerValidation.EditKeepsContactsDistinct | src/main/java/io/github/gabrielvelosoo/customerservice/application/validator/custom/CustomerValidator.java:32-38 | applying an update admitted by the update gate keeps e-mails and CPFs unique across the table |
| CustomerValidation.SharedEmailIsNonUnique | src/main/java/io/github/gabrielvelosoo/customerservice/application/validator/custom/CustomerValidator.java:20-42 | a create whose e-mail two stored customers share fails with NonUniqueResult, not the duplicate message |
| CustomerValidation.KeepingOwnCpfPasses | src/main/java/io/github/gabrielvelosoo/customerservice/application/validator/custom/CustomerValidator.java:48-50 | resubmitting one's own CPF passes when stored CPFs are distinct |
| CustomerValidation.ValidateOnUpdateIgnoresEmail | src/main/java/io/github/gabrielvelosoo/customerservice/application/validator/custom/CustomerValidator.java:32-38 | the update gate depends only on the stored CPFs |
| AddressValidation.NullOwnerDoesNotExist | src/main/java/io/github/gabrielvelosoo/customerservice/application/validator/custom/AddressValidator.java:48-51 | a null owner, or an owner with a null id, counts as not existing |
| AddressValidation.NullLoggedCustomerDenied | src/main/java/io/github/gabrielvelosoo/customerservice/application/validator/custom/AddressValidator.java:55-60 | a null logged customer owns no address |
| AddressValidation.ExistenceBeforeOwnership | src/main/java/io/github/gabrielvelosoo/customerservice/application/validator/custom/AddressValidator.java:31-38 | a missing owner is RecordNotFound "Customer not found: <owner id or null>" whoever is logged in |
| AddressValidation.NonOwnerDenied | src/main/java/io/github/gabrielvelosoo/customerservice/application/validator/custom/AddressValidator.java:39-45 | an existing owner other than the logged customer is refused with BusinessRule and the permission message |
| AddressValidation.CustomerDoesNotExist | src/main/java/io/github/gabrielvelosoo/customerservice/application/validator/custom/AddressValidator.java:48-53 | an owner exists exactly when it is set, has an id, and that id is stored |
| AddressValidation.AddressBelongsToLoggedCustomer | src/main/java/io/github/gabrielvelosoo/customerservice/application/validator/custom/AddressValidator.java:55-60 | the logged customer owns the address exactly when both are set and the owner's id is the logged customer's id |
| AddressValidation.ValidateOnCreateAsWritten | src/main/java/io/github/gabrielvelosoo/customerservice/application/validator/custom/AddressValidator.java:23-29 | as written: fails exactly when the owner does not exist; a null owner is a NullPointerException; with an owner set it agrees with the corrected gate |
| AddressValidation.ValidateOnCreate | src/main/java/io/github/gabrielvelosoo/customerservice/application/validator/custom/AddressValidator.java:23-29 | corrected create gate: fails exactly when the owner does not exist, always with "Customer not found: <owner id or null>" |
| AddressValidation.ValidateOnUpdateAndDelete | src/main/java/io/github/gabrielvelosoo/customerservice/application/validator/custom/AddressValidator.java:31-46 | passes exactly when the owner exists and is the logged customer; a missing owner is RecordNotFound, a failed login lookup is passed on, and a foreign owner is BusinessRule with the permission message |
| AddressValidation.ValidateOnCreateNullOwnerThrows | src/main/java/io/github/gabrielvelosoo/customerservice/application/validator/custom/AddressValidator.java:23-29 | as written, an address with no owner ends in a NullPointerException; the corrected gate gives "Customer not found: null" |
| AddressValidation.ValidateOnCreateFailsIffOwnerMissing | src/main/java/io/github/gabrielvelosoo/customerservice/application/validator/custom/AddressValidator.java:23-29 | the corrected create gate fails, always with RecordNotFound, exactly when the owner does not exist, and agrees with the original whenever an owner is set |
| RabbitTopology.EventKeysRouteToListeners | src/main/java/io/github/gabrielvelosoo/customerservice/infrastructure/messaging/config/RabbitConfig.java:68-81 | the created, updated and deleted keys each route to exactly the queue its listener consumes |
| RabbitTopology.Route | src/main/java/io/github/gabrielvelosoo/customerservice/infrastructure/messaging/config/RabbitConfig.java:68-96 | only the customer exchange routes anywhere, and it routes only to declared queues |
| RabbitTopology.FindQueue | src/main/java/io/github/gabrielvelosoo/customerservice/infrastructure/messaging/config/RabbitConfig.java:29-66 | a found declaration is one of the declared queues with that name; no result means no queue has that name |
| RabbitTopology.DeadLetterDestination | src/main/java/io/github/gabrielvelosoo/customerservice/infrastructure/messaging/config/RabbitConfig.java:29-51 | a rejected message lands only in one of the three DLQs |
| RabbitTopology.BindingKeysDistinct | src/main/java/io/github/gabrielvelosoo/customerservice/infrastructure/messaging/config/RabbitConfig.java:10-22 | the six binding keys are pairwise distinct |
| RabbitTopology.EveryKeyReachesOneQueue | src/main/java/io/github/gabrielvelosoo/customerservice/infrastructure/messaging/config/RabbitConfig.java:68-96 | every binding key routes to exactly its own queue |
| RabbitTopology.QueueNamesDistinct | src/main/java/io/github/gabrielvelosoo/customerservice/infrastructure/messaging/config/RabbitConfig.java:12-18 | the six queue names are pairwise distinct |
| RabbitTopology.FindQueueFindsFirst | src/main/java/io/github/gabrielvelosoo/customerservice/infrastructure/messaging/config/RabbitConfig.java:29-66 | looking a queue up by name yields its first declaration |
| RabbitTopology.LookupDeclaredQueue | src/main/java/io/github/gabrielvelosoo/customerservice/infrastructure/messaging/config/RabbitConfig.java:29-66 | each declared queue is found by its own name |
| RabbitTopology.PrimaryQueuesDeadLetterToTheirDlq | src/main/java/io/github/gabrielvelosoo/customerservice/infrastructure/messaging/config/RabbitConfig.java:29-51 | a message rejected from a primary queue lands in that queue's DLQ and nowhere else |
| RabbitTopology.DlqsAreTerminalAndQueuesDurable | src/main/java/io/github/gabrielvelosoo/customerservice/infrastructure/messaging/config/RabbitConfig.java:53-66 | every queue is durable and the DLQs have no dead-letter target |
| Messaging.MessageFor | src/main/java/io/github/gabrielvelosoo/customerservice/infrastructure/messaging/producer/CustomerProducer.java:21-46 | the message for a payload goes to the customer exchange and routes to exactly the queue of the payload's listener |
| Messaging.KeyOf | src/main/java/io/github/gabrielvelosoo/customerservice/infrastructure/messaging/producer/CustomerProducer.java:21-46 | the routing key of each payload reaches exactly the queue of the payload's listener |
| Messaging.PublishedMessagesReachTheirListener | src/main/java/io/github/gabrielvelosoo/customerservice/infrastructure/messaging/producer/CustomerProducer.java:21-46 | every message in a producer's log reaches exactly its listener's queue |
| Messaging.CustomerProducer.PublishCustomerCreated | src/main/java/io/github/gabrielvelosoo/customerservice/infrastructure/messaging/producer/CustomerProducer.java:21-28 | appends one message with the created key and the event, and keeps the log well formed |
| Messaging.CustomerProducer.PublishCustomerUpdated | src/main/java/io/github/gabrielvelosoo/customerservice/infrastructure/messaging/producer/CustomerProducer.java:30-37 | appends one message with the updated key and the event |
| Messaging.CustomerProducer.PublishCustomerDeleted | src/main/java/io/github/gabrielvelosoo/customerservice/infrastructure/messaging/producer/CustomerProducer.java:39-46 | appends one message with the deleted key and the event |
| Messaging.CustomerProducer.PublishCustomerDeletedWithReference | src/main/java/io/github/gabrielvelosoo/customerservice/infrastructure/messaging/producer/CustomerProducer.java:39-46 | corrected delete publication: same exchange and key, and the event also carries the identity reference |
| Identity.FreshIdExists | src/main/java/io/github/gabrielvelosoo/customerservice/infrastructure/security/service/KeycloakUserService.java:54 | the realm can always issue an id not yet in use |
| Identity.IdentityProvider.CreateUser | src/main/java/io/github/gabrielvelosoo/customerservice/infrastructure/security/service/KeycloakUserService.java:33-71 | an unreachable realm or a registered e-mail is KeycloakFailure with the wrapped message; otherwise exactly one new user is added under a fresh id |
| Identity.IdentityProvider.EditUser | src/main/java/io/github/gabrielvelosoo/customerservice/infrastructure/security/service/KeycloakUserService.java:95-110 | on success only that user's first and last names change; an unreachable realm and an unknown user are each a KeycloakFailure wrapping its own cause, and any failure changes nothing |
| Identity.IdentityProvider.DeleteUser | src/main/java/io/github/gabrielvelosoo/customerservice/infrastructure/security/service/KeycloakUserService.java:113-125 | on success exactly that user is removed; a failure is KeycloakFailure naming the id and changes nothing |
| Reconciliation.KeycloakConsumer.HandleCustomerCreated | src/main/java/io/github/gabrielvelosoo/customerservice/infrastructure/messaging/consumer/KeycloakConsumer.java:25-45 | an unknown customer is RecordNotFound and an already linked one is skipped, both with nothing changed; otherwise a user is created from the event and its id linked to the customer, or the failure is rethrown with nothing changed |
| Reconciliation.KeycloakConsumer.HandleCustomerUpdated | src/main/java/io/github/gabrielvelosoo/customerservice/infrastructure/messaging/consumer/KeycloakConsumer.java:47-61 | an unknown customer is RecordNotFound; an unlinked one is skipped; a linked one has the event's names copied to its identity user |
| Reconciliation.KeycloakConsumer.HandleCustomerDeleted | src/main/java/io/github/gabrielvelosoo/customerservice/infrastructure/messaging/consumer/KeycloakConsumer.java:63-77 | an unknown customer is RecordNotFound with the realm unchanged; an unlinked one is skipped; a linked one has its identity user deleted |
| Reconciliation.KeycloakConsumer.HandleCustomerDeletedWithReference | src/main/java/io/github/gabrielvelosoo/customerservice/infrastructure/messaging/consumer/KeycloakConsumer.java:63-77 | corrected handler: deletes the user named in the event, without consulting the customer store |
| Reconciliation.HandleCreatedTwice | src/main/java/io/github/gabrielvelosoo/customerservice/infrastructure/messaging/consumer/KeycloakConsumer.java:29-32 | redelivery of a Created event that already succeeded passes and changes neither the store nor the realm |
| CustomerUseCases.CustomerUseCase.Create | src/main/java/io/github/gabrielvelosoo/customerservice/application/usecase/customer/CustomerUseCaseImpl.java:35-54 | a refused request returns the gate's error and stores and publishes nothing; an accepted one is saved under a fresh id and exactly one Created event with the request's e-mail and password is published; unique e-mails and CPFs stay unique |
| CustomerUseCases.CustomerUseCase.Edit | src/main/java/io/github/gabrielvelosoo/customerservice/application/usecase/customer/CustomerUseCaseImpl.java:58-76 | an unknown id is reported before the CPF gate's refusal, both with nothing changed; on success the row is the edited customer and one Updated event is published; unique e-mails and CPFs stay unique |
| CustomerUseCases.CustomerUseCase.DeleteLoggedCustomer | src/main/java/io/github/gabrielvelosoo/customerservice/application/usecase/customer/CustomerUseCaseImpl.java:80-82 | an unknown subject is RecordNotFound and a shared one NonUniqueResult, both with nothing changed; otherwise the one customer holding the subject is deleted and announced |
| CustomerUseCases.CustomerUseCase.Delete | src/main/java/io/github/gabrielvelosoo/customerservice/application/usecase/customer/CustomerUseCaseImpl.java:86-89 | an unknown id is RecordNotFound with nothing changed; otherwise the row is removed and one Deleted event with the id is published |
| CustomerUseCases.CustomerUseCase.PerformCustomerDeletion | src/main/java/io/github/gabrielvelosoo/customerservice/application/usecase/customer/CustomerUseCaseImpl.java:91-102 | removes exactly that row, then appends exactly one Deleted event carrying only the id |
| CustomerUseCases.CustomerUseCase.DeleteWithReference | src/main/java/io/github/gabrielvelosoo/customerservice/application/usecase/customer/CustomerUseCaseImpl.java:91-102 | corrected deletion: the Deleted event also carries the identity reference read before the row is removed |
| AddressUseCases.AddressUseCase.Create | src/main/java/io/github/gabrielvelosoo/customerservice/application/usecase/address/AddressUseCaseImpl.java:32-43 | an unknown subject is RecordNotFound and a subject held by several customers NonUniqueResult, both with nothing stored; otherwise the address is saved under a fresh id and owned by the one customer holding the subject |
| AddressUseCases.AddressUseCase.GetAddressesLoggedCustomer | src/main/java/io/github/gabrielvelosoo/customerservice/application/usecase/address/AddressUseCaseImpl.java:47-54 | an unknown subject is RecordNotFound and a shared one NonUniqueResult; otherwise the result is the projections of exactly the logged customer's addresses |
| AddressUseCases.AddressUseCase.Edit | src/main/java/io/github/gabrielvelosoo/customerservice/application/usecase/address/AddressUseCaseImpl.java:58-68 | an unknown address is RecordNotFound; a missing owner, an unknown subject, a subject held by several customers and a foreign owner are refused in that order; any failure changes nothing; success overwrites the ten fields |
| AddressUseCases.AddressUseCase.Delete | src/main/java/io/github/gabrielvelosoo/customerservice/application/usecase/address/AddressUseCaseImpl.java:72-80 | the same refusals in the same order as edit; success removes exactly that address |
| AddressUseCases.UpdateOrDeleteVerdict | src/main/java/io/github/gabrielvelosoo/customerservice/application/usecase/address/AddressUseCaseImpl.java:58-80 | the gate shared by edit and delete passes exactly when the address has an owner and that owner is the only customer holding the subject |
| RequestValidation.Violations | src/main/java/io/github/gabrielvelosoo/customerservice/application/dto/address/AddressRequestDTO.java:8-48 | a group reports nothing exactly when every rule holds; every report comes from a failed rule, and every failed rule is reported |
| RequestValidation.GroupSequence | src/main/java/io/github/gabrielvelosoo/customerservice/application/validator/group/ValidationOrder.java:5 | the second group's violations are reported only when the first group has none |
| RequestValidation.Blank | src/main/java/io/github/gabrielvelosoo/customerservice/application/dto/address/AddressRequestDTO.java:10 | a value is not blank exactly when it is present and holds a character above the space; a null is blank |
| RequestValidation.ValidateAddressRequest | src/main/java/io/github/gabrielvelosoo/customerservice/application/dto/address/AddressRequestDTO.java:8-48 | an address request is accepted exactly when each field is non-blank and within its size bounds, and the complement is absent or at most 50 characters |
| RequestValidation.AddressRulesHoldIffAcceptable | src/main/java/io/github/gabrielvelosoo/customerservice/application/dto/address/AddressRequestDTO.java:8-48 | both constraint groups of an address request are clean exactly when the request is acceptable |
| RequestValidation.AddressBlankReportsOnlyRequired | src/main/java/io/github/gabrielvelosoo/customerservice/application/dto/address/AddressRequestDTO.java:10-44 | with a required field blank, something is reported and every report is "Required field" |
| RequestValidation.AddressComplementOptional | src/main/java/io/github/gabrielvelosoo/customerservice/application/dto/address/AddressRequestDTO.java:46-47 | an absent complement is never reported; the complement is reported exactly when no required field is blank and it is longer than 50 characters |
| RequestValidation.ValidateCustomerRequest | src/main/java/io/github/gabrielvelosoo/customerservice/application/dto/CustomerRequestDTO.java:13-39 | a customer request is accepted exactly when all seven fields are present and non-blank, names are 2 to 100 characters, and e-mail and CPF pass their format checks |
| RequestValidation.CustomerRequestRulesHoldIffAcceptable | src/main/java/io/github/gabrielvelosoo/customerservice/application/dto/CustomerRequestDTO.java:13-39 | both constraint groups of a customer request are clean exactly when the request is acceptable |
| RequestValidation.PasswordAndCepUnconstrained | src/main/java/io/github/gabrielvelosoo/customerservice/application/dto/CustomerRequestDTO.java:27-35 | changing password and cep between non-blank values never changes the outcome |
| RequestValidation.ValidateCustomerUpdate | src/main/java/io/github/gabrielvelosoo/customerservice/application/dto/CustomerUpdateDTO.java:12-28 | an update is accepted exactly when its four fields are present and non-blank, names are 2 to 100 characters and the CPF is valid |
| RequestValidation.CustomerUpdateRulesHoldIffAcceptable | src/main/java/io/github/gabrielvelosoo/customerservice/application/dto/CustomerUpdateDTO.java:12-28 | both constraint groups of an update are clean exactly when the update is acceptable |
| RequestValidation.AcceptedUpdateKeepsEmail | src/main/java/io/github/gabrielvelosoo/customerservice/application/dto/CustomerUpdateDTO.java:12-28 | applying an accepted update keeps e-mail, cep and identity reference, and leaves a valid CPF |
| RequestValidation.GroupSequenceOrder | src/main/java/io/github/gabrielvelosoo/customerservice/application/validator/group/ValidationOrder.java:5 | a failing first phase is reported alone and only with "Required field"; a clean one hands over to the second phase |
| RequestValidation.ValidationOrderAppliesToAllRequests | src/main/java/io/github/gabrielvelosoo/customerservice/application/dto/CustomerRequestDTO.java:15-37 | every not-blank rule of the three records reports "Required field" |
| ErrorResponses.FieldErrors | src/main/java/io/github/gabrielvelosoo/customerservice/infrastructure/exception/handler/GlobalExceptionHandler.java:29-32 | one field error per violation, in order, with its field and message |
| ErrorResponses.Handle | src/main/java/io/github/gabrielvelosoo/customerservice/infrastructure/exception/handler/GlobalExceptionHandler.java:25-87 | every body repeats the response's status; the body lists field errors exactly for a validation failure; 409 is given exactly for a duplicate; a raised exception gets 409, 404 or 500 |
| ErrorResponses.ValidationFailureIs422 | src/main/java/io/github/gabrielvelosoo/customerservice/infrastructure/exception/handler/GlobalExceptionHandler.java:25-35 | a validation failure is 422 with one entry per violation, in order |
| ErrorResponses.StatusTable | src/main/java/io/github/gabrielvelosoo/customerservice/infrastructure/exception/handler/GlobalExceptionHandler.java:37-87 | duplicate is 409, not found is 404, Keycloak and every other runtime exception is 500 |
| ErrorResponses.OnlyDuplicateEchoesMessage | src/main/java/io/github/gabrielvelosoo/customerservice/infrastructure/exception/handler/GlobalExceptionHandler.java:37-87 | only a duplicate echoes the exception's message; the other handlers answer with their fixed text, so two failures caught by the same handler give the same response |
| ErrorResponses.SharedEmailOnCreateIs500 | src/main/java/io/github/gabrielvelosoo/customerservice/infrastructure/exception/handler/GlobalExceptionHandler.java:76-87 | a create whose e-mail two stored customers share is answered 500 "Unhandled error, contact development", not 409 |
| ErrorResponses.RejectedAddressRequestResponse | src/main/java/io/github/gabrielvelosoo/customerservice/infrastructure/exception/handler/GlobalExceptionHandler.java:25-35 | a rejected address request is answered with 422, and one with a blank field only with "Required field" entries |
| DeletionPipeline.DeleteThenReconcileAsWritten | src/main/java/io/github/gabrielvelosoo/customerservice/application/usecase/customer/CustomerUseCaseImpl.java:91-102 | as written, delete succeeds but its Deleted event then fails with RecordNotFound, and a linked identity user is left in the realm |
| DeletionPipeline.DeleteThenReconcileCorrected | src/main/java/io/github/gabrielvelosoo/customerservice/infrastructure/messaging/consumer/KeycloakConsumer.java:63-77 | with the reference carried in the event, the linked identity user is removed, and an unlinked customer leaves the realm unchanged |

## Left out

- The REST controllers, OpenAPI configuration and security configuration are not modelled. They only route HTTP calls to the use cases.
- The JWT lookup is not modelled. `AuthService` reads the subject from the security context; here the subject is a parameter of each use case.
- Keycloak internals are abstracted. These include the temporary password, role assignment and HTTP status codes. A partial failure after the user exists is also left out, for example a failed role assignment. A failing remote call is either `reachable == false` or an unknown user id, and either gives a `KeycloakFailure`.
- Retries are not modelled. Neither is the 5000/2.0/20000 ms backoff, nor the redelivery that happens before a message is dead-lettered. `MAX_ATTEMPTS` is only recorded.
- Broker internals are left out: delivery order, concurrency and acknowledgements. The pipeline delivers the last message published.
- `@Transactional` rollback is not modelled. A use case whose publish fails after its save would roll back in the source; here publishing cannot fail.
- Timestamps in error bodies and all logging are left out.
- The `@Email` and `@CPF` format checks are library code, so they enter the model as parameters.
- `@Size` counts UTF-16 code units in Java; here it is sequence length.
- The order of field errors in a binding result is not fixed by the framework. Here it is declaration order.
- `findByCustomerId` and `toDTOs` return lists; here they are sets, since address ids are unique.
- `findByKeycloakUserId` is a derived single-row query. When several rows match, Spring Data throws `IncorrectResultSizeDataAccessException`; here that is `NonUniqueResult`, which the exception handler answers with 500. The same holds for the uniqueness lookups `findByEmail`, `findByCpf` and `findByCpfAndNotId` in `CustomerValidator`, which meet several matching rows only in a table that already holds duplicates.
- Ids are unbounded integers. The source's `java.lang.Long` ids and the IDENTITY sequence that issues them are 64-bit; their overflow is not modelled.
- JPA `save` is simplified: returning the entity, with an id issued for a new row, is all that is modelled.
- ErrorResponses.Handle: a `BusinessRuleException`, like every other runtime exception including `NonUniqueResult`, maps to 500, because the handler has no case of its own for it. A 403 may have been intended, but the code is followed.
- Messaging.CustomerProducer.PublishCustomerUpdated: the updated event carries only id, name and last name, as the use case builds it.
- The repository is in the middle of a refactor. `CustomerController.java:5` imports the legacy `application/usecase/CustomerUseCase`, so POST /api/v1/customers (lines 22-26) is routed to the legacy `application/usecase/CustomerUseCaseImpl.java`. The model follows the new `application/usecase/customer` package instead, which `CustomerControllerTest.java:7` targets.
- The legacy create is left out. It calls the identity provider synchronously, at lines 29-34, before it saves, and it publishes no event. The legacy edit and delete are left out in the same way.
- Identity.IdentityProvider.EditUser: the admin client's exception messages are approximated by two fixed causes, "Keycloak is unavailable" and "HTTP 404 Not Found".
- Deleting a customer whose addresses are still stored leaves those addresses pointing at a missing owner. `Address.java:54-56` declares the owner column `nullable = false`. Whether the database then refuses the delete or cascades it depends on the customer entity's mapping, and `Customer.java` is not part of this model.
- The as-written deletion finding assumes the Deleted event is consumed after the deleting transaction commits. The publish runs inside that `@Transactional` method (`CustomerUseCaseImpl.java:86-101`), so a delivery that overtook the commit would still find the row.

## Findings

| source | as written | input that shows it | evidently intended | confidence | as-written member | corrected member |
|---|---|---|---|---|---|---|
| src/main/java/io/github/gabrielvelosoo/customerservice/application/usecase/customer/CustomerUseCaseImpl.java:94-101 | the row is deleted, and then a Deleted event carrying only the id is published; the consumer at KeycloakConsumer.java:66 looks the customer up by that id | delete a stored customer that has a linked Keycloak user, with the event consumed after the delete commits | the linked Keycloak user is deleted | not executed | DeletionPipeline.DeleteThenReconcileAsWritten | DeletionPipeline.DeleteThenReconcileCorrected |
| src/main/java/io/github/gabrielvelosoo/customerservice/application/validator/custom/AddressValidator.java:25-27 | with a null owner, `customerDoesNotExist` is true and the log line dereferences `address.getCustomer()` | an address whose customer is null | RecordNotFound "Customer not found: null", guarded as in `validateOnUpdateAndDelete` | not executed | AddressValidation.ValidateOnCreateNullOwnerThrows | AddressValidation.ValidateOnCreateFailsIffOwnerMissing |
