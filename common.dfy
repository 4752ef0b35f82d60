/** Types shared by every layer of the customer service: nullable values,
    the error kinds the services throw, and Java's rendering of a `Long`
    inside an error message. */
module Common {

  /** A Java reference that may be null. */
  datatype Option<+T> = None | Some(value: T)

  /** A database identifier (`java.lang.Long`); integer width is not modelled. */
  type Id = int

  /** A nullable `java.lang.String`. */
  type Text = Option<string>

  /** The exceptions the core throws, one constructor per exception class. */
  datatype Error =
    | RecordNotFound(message: string)   // RecordNotFoundException
    | DuplicateRecord(message: string)  // DuplicateRecordException
    | BusinessRule(message: string)     // BusinessRuleException
    | KeycloakFailure(message: string)  // KeycloakException
    | NullReference                     // a NullPointerException raised by the code itself
    | NonUniqueResult                   // IncorrectResultSizeDataAccessException: a single-row query matched several rows

  /** The value a Java method returns, or the exception it throws. */
  datatype Result<+T> = Ok(value: T) | Err(error: Error)

  /** The outcome of a `void` Java method: normal return or a thrown exception. */
  datatype Outcome = Pass | Fail(error: Error)

  function DigitChar(d: nat): char
    requires d < 10
  {
    (48 + d) as char
  }

  predicate IsDigit(c: char) {
    '0' <= c <= '9'
  }

  /** Decimal rendering of a non-negative number, most significant digit first. */
  function NatString(n: nat): string
    decreases n
  {
    if n < 10 then [DigitChar(n)] else NatString(n / 10) + [DigitChar(n % 10)]
  }

  /** `"" + n` for a `long` n, as Java's string concatenation writes it. */
  function LongString(n: int): string {
    if n < 0 then "-" + NatString(-n) else NatString(n)
  }

  /** `"" + x` for a `Long` x that may be null. */
  function NullableLongString(x: Option<Id>): string {
    if x.None? then "null" else LongString(x.value)
  }

  /** Reads a string of decimal digits back as a number. */
  function ParseDigits(s: string): nat
    decreases |s|
  {
    if s == [] then 0
    else ParseDigits(s[..|s| - 1]) * 10 + (if IsDigit(s[|s| - 1]) then s[|s| - 1] as int - 48 else 0)
  }

  /** Every character of a rendered number is a decimal digit. */
  lemma {:induction false} NatStringDigits(n: nat)
    ensures |NatString(n)| > 0
    ensures forall i :: 0 <= i < |NatString(n)| ==> IsDigit(NatString(n)[i])
    decreases n
  {
    if n >= 10 {
      NatStringDigits(n / 10);
    }
  }

  /** Parsing undoes rendering. */
  lemma {:induction false} NatStringRoundTrip(n: nat)
    ensures ParseDigits(NatString(n)) == n
    decreases n
  {
    if n >= 10 {
      var prefix := NatString(n / 10);
      var s := prefix + [DigitChar(n % 10)];
      assert s[..|s| - 1] == prefix;
      NatStringRoundTrip(n / 10);
    }
  }

  /** A rendered id starts with a minus sign exactly when it is negative. */
  lemma LongStringSign(n: int)
    ensures |LongString(n)| > 0
    ensures LongString(n)[0] == '-' <==> n < 0
  {
    NatStringDigits(if n < 0 then -n else n);
  }

  /** Two ids that render alike are equal, so a "not found" message names exactly one id. */
  lemma LongStringInjective(a: int, b: int)
    requires LongString(a) == LongString(b)
    ensures a == b
  {
    LongStringSign(a);
    LongStringSign(b);
    if a < 0 && b < 0 {
      assert NatString(-a) == LongString(a)[1..];
      NatStringRoundTrip(-a);
      NatStringRoundTrip(-b);
    } else if a >= 0 && b >= 0 {
      NatStringRoundTrip(a);
      NatStringRoundTrip(b);
    }
  }
}
