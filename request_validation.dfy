/** The declarative constraints on the three request records and the
    ValidationOrder group sequence: every ValidateNotBlank constraint is checked
    first, and the ValidateOthers constraints only when none of those failed
    (section 5.4.2 of Jakarta Bean Validation 3.0, group sequences).
    Violations are listed in field declaration order. The e-mail and CPF checks
    belong to the validation library and are parameters here. */
module RequestValidation {
  import opened Common
  import opened Domain

  datatype Violation = Violation(field: string, message: string)

  const REQUIRED := "Required field"
  const SIZE_2_100 := "The field must be between 2 and 100 characters"
  const SIZE_2_150 := "The field must be between 2 and 150 characters"
  const SIZE_11 := "The field must have 11 characters"
  const SIZE_8 := "The field must have 8 characters"
  const MAX_10 := "The field must have a maximum of 10 characters"
  const MAX_50 := "The field must have a maximum of 50 characters"
  const INVALID_EMAIL := "Invalid address e-mail"
  const INVALID_CPF := "Invalid CPF"

  /** `@NotBlank` fails on null and on a string that trims to nothing
      (every character at or below U+0020). */
  predicate Blank(t: Text)
    ensures t.None? ==> Blank(t)
    ensures !Blank(t) <==> (t.Some? && exists i :: 0 <= i < |t.value| && t.value[i] > ' ')
  {
    t.None? || forall i :: 0 <= i < |t.value| ==> t.value[i] <= ' '
  }

  /** `@Size(min, max)`: null is valid. */
  predicate SizeOk(t: Text, min: nat, max: nat) {
    t.None? || min <= |t.value| <= max
  }

  /** `@Email` and `@CPF`: null is valid; otherwise the library's check decides. */
  predicate FormatOk(t: Text, check: string -> bool) {
    t.None? || check(t.value)
  }

  /** One constraint on one field: whether the value satisfies it, and the
      field's fixed message for when it does not. */
  datatype Rule = Rule(field: string, ok: bool, message: string)

  /** The violations of a group: one per unmet rule, in rule order. */
  function Violations(rules: seq<Rule>): (vs: seq<Violation>)
    ensures vs == [] <==> forall i :: 0 <= i < |rules| ==> rules[i].ok
    ensures forall v :: v in vs ==>
      exists i :: 0 <= i < |rules| && !rules[i].ok && v == Violation(rules[i].field, rules[i].message)
    ensures forall i :: 0 <= i < |rules| && !rules[i].ok ==> Violation(rules[i].field, rules[i].message) in vs
  {
    if rules == [] then []
    else
      var rest := Violations(rules[1..]);
      assert forall i :: 1 <= i < |rules| ==> rules[i] == rules[1..][i - 1];
      if rules[0].ok then rest else [Violation(rules[0].field, rules[0].message)] + rest
  }

  /** `@GroupSequence({ValidateNotBlank, ValidateOthers})`: the second group is
      evaluated only when the first reports nothing. */
  function GroupSequence(first: seq<Violation>, second: seq<Violation>): (vs: seq<Violation>)
    ensures first != [] ==> vs == first
    ensures first == [] ==> vs == second
  {
    if first != [] then first else second
  }

  // AddressRequestDTO

  function AddressNotBlankRules(r: AddressRequest): seq<Rule> {
    [Rule("contactName", !Blank(r.contactName), REQUIRED),
     Rule("contactLastName", !Blank(r.contactLastName), REQUIRED),
     Rule("contactPhone", !Blank(r.contactPhone), REQUIRED),
     Rule("address", !Blank(r.address), REQUIRED),
     Rule("number", !Blank(r.number), REQUIRED),
     Rule("neighborhood", !Blank(r.neighborhood), REQUIRED),
     Rule("city", !Blank(r.city), REQUIRED),
     Rule("state", !Blank(r.state), REQUIRED),
     Rule("cep", !Blank(r.cep), REQUIRED)]
  }

  function AddressOtherRules(r: AddressRequest): seq<Rule> {
    [Rule("contactName", SizeOk(r.contactName, 2, 100), SIZE_2_100),
     Rule("contactLastName", SizeOk(r.contactLastName, 2, 100), SIZE_2_100),
     Rule("contactPhone", SizeOk(r.contactPhone, 11, 11), SIZE_11),
     Rule("address", SizeOk(r.address, 2, 150), SIZE_2_150),
     Rule("number", SizeOk(r.number, 0, 10), MAX_10),
     Rule("neighborhood", SizeOk(r.neighborhood, 2, 100), SIZE_2_100),
     Rule("city", SizeOk(r.city, 2, 100), SIZE_2_100),
     Rule("state", SizeOk(r.state, 2, 100), SIZE_2_100),
     Rule("cep", SizeOk(r.cep, 8, 8), SIZE_8),
     Rule("complement", SizeOk(r.complement, 0, 50), MAX_50)]
  }

  /** `@Validated(ValidationOrder.class)` on an address request: accepted exactly
      when every field meets its constraints. */
  function ValidateAddressRequest(r: AddressRequest): (vs: seq<Violation>)
    ensures vs == [] <==> AddressRequestAcceptable(r)
  {
    AddressRulesHoldIffAcceptable(r);
    GroupSequence(Violations(AddressNotBlankRules(r)), Violations(AddressOtherRules(r)))
  }

  /** A text that is present, not blank, and whose length lies in [min, max]. */
  predicate Filled(t: Text, min: nat, max: nat) {
    !Blank(t) && min <= |t.value| <= max
  }

  /** The constraints of an address request, stated field by field. */
  predicate AddressRequestAcceptable(r: AddressRequest) {
    Filled(r.contactName, 2, 100) && Filled(r.contactLastName, 2, 100)
    && Filled(r.contactPhone, 11, 11) && Filled(r.address, 2, 150) && Filled(r.number, 0, 10)
    && Filled(r.neighborhood, 2, 100) && Filled(r.city, 2, 100) && Filled(r.state, 2, 100)
    && Filled(r.cep, 8, 8)
    && (r.complement.None? || |r.complement.value| <= 50)
  }

  /** Both rule groups of an address request hold exactly when every field meets its constraints. */
  lemma AddressRulesHoldIffAcceptable(r: AddressRequest)
    ensures Violations(AddressNotBlankRules(r)) == [] && Violations(AddressOtherRules(r)) == []
            <==> AddressRequestAcceptable(r)
  {
    var blank, others := AddressNotBlankRules(r), AddressOtherRules(r);
    if Violations(blank) == [] && Violations(others) == [] {
      assert blank[0].ok && blank[1].ok && blank[2].ok && blank[3].ok && blank[4].ok;
      assert blank[5].ok && blank[6].ok && blank[7].ok && blank[8].ok;
      assert others[0].ok && others[1].ok && others[2].ok && others[3].ok && others[4].ok;
      assert others[5].ok && others[6].ok && others[7].ok && others[8].ok && others[9].ok;
    }
  }

  /** Some field that must not be blank is blank. */
  predicate SomeAddressFieldBlank(r: AddressRequest) {
    Blank(r.contactName) || Blank(r.contactLastName) || Blank(r.contactPhone) || Blank(r.address)
    || Blank(r.number) || Blank(r.neighborhood) || Blank(r.city) || Blank(r.state) || Blank(r.cep)
  }

  /** A blank field stops validation after the first phase: only "Required field" is reported. */
  lemma AddressBlankReportsOnlyRequired(r: AddressRequest)
    requires SomeAddressFieldBlank(r)
    ensures ValidateAddressRequest(r) != []
    ensures forall v :: v in ValidateAddressRequest(r) ==> v.message == REQUIRED
  {
    var blank := AddressNotBlankRules(r);
    assert !blank[0].ok || !blank[1].ok || !blank[2].ok || !blank[3].ok || !blank[4].ok
      || !blank[5].ok || !blank[6].ok || !blank[7].ok || !blank[8].ok;
    assert Violations(blank) != [];
    ValidationOrderAppliesToAllRequests(r);
    GroupSequenceOrder(blank, AddressOtherRules(r));
  }

  /** The complement is optional: absent, it is never reported; present, it is
      reported, with its own message, exactly when longer than 50 characters. */
  lemma AddressComplementOptional(r: AddressRequest)
    ensures r.complement.None? ==> forall v :: v in ValidateAddressRequest(r) ==> v.field != "complement"
    ensures Violation("complement", MAX_50) in ValidateAddressRequest(r) <==>
      Violations(AddressNotBlankRules(r)) == [] && r.complement.Some? && |r.complement.value| > 50
  {
    var blank, others := AddressNotBlankRules(r), AddressOtherRules(r);
    assert forall i :: 0 <= i < |blank| ==> |blank[i].field| != |"complement"|;
    assert forall i :: 0 <= i < |others| - 1 ==> |others[i].field| != |"complement"|;
    if Violations(blank) == [] && r.complement.Some? && |r.complement.value| > 50 {
      assert !others[9].ok;
      assert Violation(others[9].field, others[9].message) in Violations(others);
    }
    if Violation("complement", MAX_50) in ValidateAddressRequest(r) {
      if Violations(blank) == [] {
        var i :| 0 <= i < |others| && !others[i].ok && Violation("complement", MAX_50) == Violation(others[i].field, others[i].message);
        assert i == 9;
      }
    }
  }

  // CustomerRequestDTO

  function CustomerRequestNotBlankRules(r: CustomerRequest): seq<Rule> {
    [Rule("name", !Blank(r.name), REQUIRED),
     Rule("lastName", !Blank(r.lastName), REQUIRED),
     Rule("email", !Blank(r.email), REQUIRED),
     Rule("password", !Blank(r.password), REQUIRED),
     Rule("cpf", !Blank(r.cpf), REQUIRED),
     Rule("cep", !Blank(r.cep), REQUIRED),
     Rule("birthDate", r.birthDate.Some?, REQUIRED)]
  }

  function CustomerRequestOtherRules(r: CustomerRequest, isEmail: string -> bool, isCpf: string -> bool): seq<Rule> {
    [Rule("name", SizeOk(r.name, 2, 100), SIZE_2_100),
     Rule("lastName", SizeOk(r.lastName, 2, 100), SIZE_2_100),
     Rule("email", FormatOk(r.email, isEmail), INVALID_EMAIL),
     Rule("cpf", FormatOk(r.cpf, isCpf), INVALID_CPF)]
  }

  /** `@Validated(ValidationOrder.class)` on a customer request: accepted exactly
      when every field meets its constraints. */
  function ValidateCustomerRequest(r: CustomerRequest, isEmail: string -> bool, isCpf: string -> bool): (vs: seq<Violation>)
    ensures vs == [] <==> CustomerRequestAcceptable(r, isEmail, isCpf)
  {
    CustomerRequestRulesHoldIffAcceptable(r, isEmail, isCpf);
    GroupSequence(Violations(CustomerRequestNotBlankRules(r)), Violations(CustomerRequestOtherRules(r, isEmail, isCpf)))
  }

  /** The constraints of a customer request, stated field by field; password and
      cep need only be non-blank. */
  predicate CustomerRequestAcceptable(r: CustomerRequest, isEmail: string -> bool, isCpf: string -> bool) {
    Filled(r.name, 2, 100) && Filled(r.lastName, 2, 100)
    && !Blank(r.email) && isEmail(r.email.value)
    && !Blank(r.password)
    && !Blank(r.cpf) && isCpf(r.cpf.value)
    && !Blank(r.cep)
    && r.birthDate.Some?
  }

  /** Both rule groups of a customer request hold exactly when every field meets its constraints. */
  lemma CustomerRequestRulesHoldIffAcceptable(r: CustomerRequest, isEmail: string -> bool, isCpf: string -> bool)
    ensures Violations(CustomerRequestNotBlankRules(r)) == [] && Violations(CustomerRequestOtherRules(r, isEmail, isCpf)) == []
            <==> CustomerRequestAcceptable(r, isEmail, isCpf)
  {
    var blank, others := CustomerRequestNotBlankRules(r), CustomerRequestOtherRules(r, isEmail, isCpf);
    if Violations(blank) == [] && Violations(others) == [] {
      assert blank[0].ok && blank[1].ok && blank[2].ok && blank[3].ok && blank[4].ok && blank[5].ok && blank[6].ok;
      assert others[0].ok && others[1].ok && others[2].ok && others[3].ok;
    }
  }

  /** Password and cep carry no constraint beyond non-blank: any two non-blank
      values give the same violations. */
  lemma PasswordAndCepUnconstrained(r: CustomerRequest, password: string, cep: string, isEmail: string -> bool, isCpf: string -> bool)
    requires !Blank(r.password) && !Blank(r.cep)
    requires !Blank(Some(password)) && !Blank(Some(cep))
    ensures ValidateCustomerRequest(r.(password := Some(password), cep := Some(cep)), isEmail, isCpf)
         == ValidateCustomerRequest(r, isEmail, isCpf)
  {
    var r' := r.(password := Some(password), cep := Some(cep));
    assert CustomerRequestNotBlankRules(r') == CustomerRequestNotBlankRules(r);
    assert CustomerRequestOtherRules(r', isEmail, isCpf) == CustomerRequestOtherRules(r, isEmail, isCpf);
  }

  // CustomerUpdateDTO

  function CustomerUpdateNotBlankRules(u: CustomerUpdate): seq<Rule> {
    [Rule("name", !Blank(u.name), REQUIRED),
     Rule("lastName", !Blank(u.lastName), REQUIRED),
     Rule("cpf", !Blank(u.cpf), REQUIRED),
     Rule("birthDate", u.birthDate.Some?, REQUIRED)]
  }

  function CustomerUpdateOtherRules(u: CustomerUpdate, isCpf: string -> bool): seq<Rule> {
    [Rule("name", SizeOk(u.name, 2, 100), SIZE_2_100),
     Rule("lastName", SizeOk(u.lastName, 2, 100), SIZE_2_100),
     Rule("cpf", FormatOk(u.cpf, isCpf), INVALID_CPF)]
  }

  /** `@Validated(ValidationOrder.class)` on an update: accepted exactly when
      every field meets its constraints. */
  function ValidateCustomerUpdate(u: CustomerUpdate, isCpf: string -> bool): (vs: seq<Violation>)
    ensures vs == [] <==> CustomerUpdateAcceptable(u, isCpf)
  {
    CustomerUpdateRulesHoldIffAcceptable(u, isCpf);
    GroupSequence(Violations(CustomerUpdateNotBlankRules(u)), Violations(CustomerUpdateOtherRules(u, isCpf)))
  }

  predicate CustomerUpdateAcceptable(u: CustomerUpdate, isCpf: string -> bool) {
    Filled(u.name, 2, 100) && Filled(u.lastName, 2, 100)
    && !Blank(u.cpf) && isCpf(u.cpf.value)
    && u.birthDate.Some?
  }

  /** Both rule groups of an update hold exactly when every field meets its constraints. */
  lemma CustomerUpdateRulesHoldIffAcceptable(u: CustomerUpdate, isCpf: string -> bool)
    ensures Violations(CustomerUpdateNotBlankRules(u)) == [] && Violations(CustomerUpdateOtherRules(u, isCpf)) == []
            <==> CustomerUpdateAcceptable(u, isCpf)
  {
    var blank, others := CustomerUpdateNotBlankRules(u), CustomerUpdateOtherRules(u, isCpf);
    if Violations(blank) == [] && Violations(others) == [] {
      assert blank[0].ok && blank[1].ok && blank[2].ok && blank[3].ok;
      assert others[0].ok && others[1].ok && others[2].ok;
    }
  }

  /** An accepted update, applied, leaves the stored e-mail, cep and identity
      reference as they were (the update record has no such fields) and stores a
      CPF the CPF check accepts. */
  lemma AcceptedUpdateKeepsEmail(c: Customer, u: CustomerUpdate, isCpf: string -> bool)
    requires ValidateCustomerUpdate(u, isCpf) == []
    ensures ApplyCustomerUpdate(c, u).email == c.email && ApplyCustomerUpdate(c, u).cep == c.cep
    ensures ApplyCustomerUpdate(c, u).keycloakUserId == c.keycloakUserId
    ensures ApplyCustomerUpdate(c, u).cpf.Some? && isCpf(ApplyCustomerUpdate(c, u).cpf.value)
  {
  }

  // ValidationOrder

  /** Every ValidateNotBlank rule of the three records reports "Required field". */
  predicate AllRequired(rules: seq<Rule>) {
    forall i :: 0 <= i < |rules| ==> rules[i].message == REQUIRED
  }

  /** Under the group sequence, a failing first phase is reported alone and only
      with "Required field"; a clean first phase reports exactly the second. */
  lemma {:induction false} GroupSequenceOrder(first: seq<Rule>, second: seq<Rule>)
    requires AllRequired(first)
    ensures Violations(first) != [] ==>
      GroupSequence(Violations(first), Violations(second)) == Violations(first)
      && forall v :: v in GroupSequence(Violations(first), Violations(second)) ==> v.message == REQUIRED
    ensures Violations(first) == [] ==> GroupSequence(Violations(first), Violations(second)) == Violations(second)
  {
  }

  /** The ordering applies to all three records validated with ValidationOrder. */
  lemma ValidationOrderAppliesToAllRequests(r: AddressRequest)
    ensures AllRequired(AddressNotBlankRules(r))
    ensures forall c :: AllRequired(CustomerRequestNotBlankRules(c))
    ensures forall u :: AllRequired(CustomerUpdateNotBlankRules(u))
  {
  }
}
