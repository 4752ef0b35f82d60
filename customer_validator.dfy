/** CustomerValidator: uniqueness gates over the customer repository. They
    only read the rows, so they are functions of the `customers` map. */
module CustomerValidation {
  import opened Common
  import opened Domain

  const EMAIL_TAKEN := "There is already an account registered with this e-mail"
  const CPF_TAKEN := "There is already an account registered with this CPF"

  /** The stored customers registered under an e-mail. */
  function EmailHolders(customers: map<Id, Customer>, email: Text): set<Id> {
    set k | k in customers.Keys && customers[k].email == email
  }

  /** The stored customers registered under a CPF. */
  function CpfHolders(customers: map<Id, Customer>, cpf: Text): set<Id> {
    set k | k in customers.Keys && customers[k].cpf == cpf
  }

  /** Exactly one customer is in `holders`. */
  predicate OneHolder(holders: set<Id>) {
    exists k :: k in holders && forall j :: j in holders ==> j == k
  }

  /** Two different customers are in `holders`. */
  predicate SeveralHolders(holders: set<Id>) {
    exists j, k :: j in holders && k in holders && j != k
  }

  /** `Optional.isPresent()` on a single-row derived query: no row is empty, one row is
      present, and several rows make the query throw IncorrectResultSizeDataAccessException. */
  function IsPresent(holders: set<Id>): (r: Result<bool>)
    ensures (forall k :: k !in holders) ==> r == Ok(false)
    ensures OneHolder(holders) ==> r == Ok(true)
    ensures SeveralHolders(holders) ==> r == Err(NonUniqueResult)
  {
    if !exists k :: k in holders then Ok(false)
    else if exists j, k :: j in holders && k in holders && j != k then Err(NonUniqueResult)
    else Ok(true)
  }

  /** Every set of holders is empty, a single customer, or several. */
  lemma HolderCases(holders: set<Id>)
    ensures (forall k :: k !in holders) || OneHolder(holders) || SeveralHolders(holders)
  {
  }

  lemma OneHolderCarries(a: set<Id>, b: set<Id>)
    requires forall k :: k in a <==> k in b
    requires OneHolder(a)
    ensures OneHolder(b)
  {
    var k :| k in a && forall j :: j in a ==> j == k;
    assert k in b;
  }

  lemma SeveralHoldersCarry(a: set<Id>, b: set<Id>)
    requires forall k :: k in a <==> k in b
    requires SeveralHolders(a)
    ensures SeveralHolders(b)
  {
    var j, k :| j in a && k in a && j != k;
    assert j in b && k in b;
  }

  /** The query's answer depends only on which customers match. */
  lemma SameHoldersSameAnswer(a: set<Id>, b: set<Id>)
    requires forall k :: k in a <==> k in b
    ensures IsPresent(a) == IsPresent(b)
  {
    HolderCases(a);
    if OneHolder(a) {
      OneHolderCarries(a, b);
    } else if SeveralHolders(a) {
      SeveralHoldersCarry(a, b);
    }
  }

  /** `findByEmail(email).isPresent()` */
  function CustomerHasRegisteredEmail(customers: map<Id, Customer>, email: Text): Result<bool> {
    IsPresent(EmailHolders(customers, email))
  }

  /** `findByCpf(cpf).isPresent()` */
  function CustomerHasRegisteredCpf(customers: map<Id, Customer>, cpf: Text): Result<bool> {
    IsPresent(CpfHolders(customers, cpf))
  }

  /** `findByCpfAndNotId(cpf, customerId).isPresent()` */
  function CustomerHasRegisteredCpfOnUpdate(customers: map<Id, Customer>, customerId: Id, cpf: Text): Result<bool> {
    IsPresent(CpfHolders(customers, cpf) - {customerId})
  }

  /** `validateOnCreate`: the e-mail is checked first, the CPF only when the e-mail is free.
      A value held by one row is a duplicate; one held by several makes the lookup throw. */
  function ValidateOnCreate(customers: map<Id, Customer>, customer: Customer): (o: Outcome)
    ensures o == Pass <==>
      forall k :: k in customers ==> customers[k].email != customer.email && customers[k].cpf != customer.cpf
    ensures o == Fail(DuplicateRecord(EMAIL_TAKEN)) <==> OneHolder(EmailHolders(customers, customer.email))
    ensures o == Fail(DuplicateRecord(CPF_TAKEN)) <==>
      (forall k :: k in customers ==> customers[k].email != customer.email) && OneHolder(CpfHolders(customers, customer.cpf))
    ensures o == Fail(NonUniqueResult) <==>
      SeveralHolders(EmailHolders(customers, customer.email))
      || ((forall k :: k in customers ==> customers[k].email != customer.email)
          && SeveralHolders(CpfHolders(customers, customer.cpf)))
    ensures o.Fail? ==> o.error.DuplicateRecord? || o.error == NonUniqueResult
  {
    assert |EMAIL_TAKEN| != |CPF_TAKEN|;
    var emailHolders := EmailHolders(customers, customer.email);
    var cpfHolders := CpfHolders(customers, customer.cpf);
    assert forall k :: k in customers && customers[k].email == customer.email ==> k in emailHolders;
    assert forall k :: k in customers && customers[k].cpf == customer.cpf ==> k in cpfHolders;
    HolderCases(emailHolders);
    HolderCases(cpfHolders);
    match CustomerHasRegisteredEmail(customers, customer.email)
    case Err(e) => Fail(e)
    case Ok(true) => Fail(DuplicateRecord(EMAIL_TAKEN))
    case Ok(false) =>
      match CustomerHasRegisteredCpf(customers, customer.cpf)
      case Err(e) => Fail(e)
      case Ok(true) => Fail(DuplicateRecord(CPF_TAKEN))
      case Ok(false) => Pass
  }

  /** `validateOnUpdate`: only the CPF, and only against other customers. */
  function ValidateOnUpdate(customers: map<Id, Customer>, customerId: Id, update: CustomerUpdate): (o: Outcome)
    ensures o == Pass <==> forall k :: k in customers && k != customerId ==> customers[k].cpf != update.cpf
    ensures o == Fail(DuplicateRecord(CPF_TAKEN)) <==> OneHolder(CpfHolders(customers, update.cpf) - {customerId})
    ensures o == Fail(NonUniqueResult) <==> SeveralHolders(CpfHolders(customers, update.cpf) - {customerId})
    ensures o == Pass || o == Fail(DuplicateRecord(CPF_TAKEN)) || o == Fail(NonUniqueResult)
  {
    var others := CpfHolders(customers, update.cpf) - {customerId};
    assert forall k :: k in customers && k != customerId && customers[k].cpf == update.cpf ==> k in others;
    HolderCases(others);
    match CustomerHasRegisteredCpfOnUpdate(customers, customerId, update.cpf)
    case Err(e) => Fail(e)
    case Ok(true) => Fail(DuplicateRecord(CPF_TAKEN))
    case Ok(false) => Pass
  }

  /** A taken e-mail decides the verdict whatever the CPF is: the CPF is never consulted.
      A sole holder makes it a duplicate. */
  lemma EmailCheckedFirst(customers: map<Id, Customer>, customer: Customer, holder: Id, otherCpf: Text)
    requires holder in customers && customers[holder].email == customer.email
    ensures ValidateOnCreate(customers, customer.(cpf := otherCpf)) == ValidateOnCreate(customers, customer)
    ensures ValidateOnCreate(customers, customer) ==
      if forall k :: k in customers && customers[k].email == customer.email ==> k == holder
      then Fail(DuplicateRecord(EMAIL_TAKEN)) else Fail(NonUniqueResult)
  {
    var hs := EmailHolders(customers, customer.email);
    assert holder in hs;
    if forall k :: k in customers && customers[k].email == customer.email ==> k == holder {
      assert OneHolder(hs);
    } else {
      var other :| other in customers && customers[other].email == customer.email && other != holder;
      assert other in hs;
      assert SeveralHolders(hs);
    }
    assert customer.(cpf := otherCpf).email == customer.email;
  }

  /** With a free e-mail, a taken CPF is reported: as a duplicate when one customer holds it. */
  lemma CpfCheckedWhenEmailFree(customers: map<Id, Customer>, customer: Customer, holder: Id)
    requires forall k :: k in customers ==> customers[k].email != customer.email
    requires holder in customers && customers[holder].cpf == customer.cpf
    ensures ValidateOnCreate(customers, customer) ==
      if forall k :: k in customers && customers[k].cpf == customer.cpf ==> k == holder
      then Fail(DuplicateRecord(CPF_TAKEN)) else Fail(NonUniqueResult)
  {
    var hs := CpfHolders(customers, customer.cpf);
    assert holder in hs;
    if forall k :: k in customers && customers[k].cpf == customer.cpf ==> k == holder {
      assert OneHolder(hs);
    } else {
      var other :| other in customers && customers[other].cpf == customer.cpf && other != holder;
      assert other in hs;
      assert SeveralHolders(hs);
    }
  }

  /** Two stored customers with the same e-mail make the e-mail lookup throw. */
  lemma SharedEmailIsNonUnique(customers: map<Id, Customer>, customer: Customer, j: Id, k: Id)
    requires j in customers && k in customers && j != k
    requires customers[j].email == customer.email && customers[k].email == customer.email
    ensures ValidateOnCreate(customers, customer) == Fail(NonUniqueResult)
  {
    var holders := EmailHolders(customers, customer.email);
    assert j in holders && k in holders;
    assert SeveralHolders(holders);
  }

  /** Keeping one's own CPF passes whenever the stored CPFs are distinct. */
  lemma KeepingOwnCpfPasses(customers: map<Id, Customer>, customerId: Id, update: CustomerUpdate)
    requires forall j, k :: j in customers && k in customers && j != k ==> customers[j].cpf != customers[k].cpf
    requires customerId in customers && update.cpf == customers[customerId].cpf
    ensures ValidateOnUpdate(customers, customerId, update) == Pass
  {
  }

  /** The update gate looks only at stored CPFs: two stores with the same CPF
      under the same keys give the same verdict, whatever their e-mails. */
  lemma ValidateOnUpdateIgnoresEmail(customers: map<Id, Customer>, others: map<Id, Customer>, customerId: Id, update: CustomerUpdate)
    requires customers.Keys == others.Keys
    requires forall k :: k in customers ==> customers[k].cpf == others[k].cpf
    ensures ValidateOnUpdate(customers, customerId, update) == ValidateOnUpdate(others, customerId, update)
  {
    var mine := CpfHolders(customers, update.cpf) - {customerId};
    var theirs := CpfHolders(others, update.cpf) - {customerId};
    assert forall k :: k in mine <==> k in theirs;
    SameHoldersSameAnswer(mine, theirs);
  }

  /** No two stored customers share an e-mail or a CPF: what the two gates exist to keep. */
  predicate DistinctContacts(customers: map<Id, Customer>) {
    forall j, k :: j in customers && k in customers && j != k ==>
      customers[j].email != customers[k].email && customers[j].cpf != customers[k].cpf
  }

  /** Saving a customer the create gate passed, under a new id, keeps e-mails and CPFs distinct. */
  lemma CreateKeepsContactsDistinct(customers: map<Id, Customer>, customer: Customer, id: Id)
    requires DistinctContacts(customers)
    requires ValidateOnCreate(customers, customer) == Pass && id !in customers
    ensures DistinctContacts(customers[id := customer.(id := Some(id))])
  {
  }

  /** Applying an update the update gate passed keeps e-mails and CPFs distinct. */
  lemma EditKeepsContactsDistinct(customers: map<Id, Customer>, customerId: Id, update: CustomerUpdate)
    requires DistinctContacts(customers)
    requires customerId in customers && ValidateOnUpdate(customers, customerId, update) == Pass
    ensures DistinctContacts(customers[customerId := ApplyCustomerUpdate(customers[customerId], update)])
  {
  }
}
