/** The form checks of `LoadGeneratorBuilder.DescriptorImpl`: each parses the
    submitted field with `Integer.parseInt` and reports a malformed number, a
    number that is not positive, or success. */
module Validators {
  import opened Wrappers
  import opened JavaInt

  /** Jenkins' `FormValidation`: ok, or an error carrying its message. */
  datatype FormValidation = FormOk | FormError(message: string)

  /** The parsed value is usable as a port, user count or running time. */
  predicate IsPositive(s: Option<string>) {
    ParseInt(s).Success? && ParseInt(s).value >= 1
  }

  function DoCheckPort(value: Option<string>): (r: FormValidation)
    ensures r == FormError("port must be number") <==> ParseInt(value).Failure?
    ensures r == FormError("port must be a positive number") <==> ParseInt(value).Success? && ParseInt(value).value < 1
    ensures r == FormOk <==> IsPositive(value)
  {
    match ParseInt(value)
    case Failure(_) => FormError("port must be number")
    case Success(port) => if port < 1 then FormError("port must be a positive number") else FormOk
  }

  function DoCheckUsers(value: Option<string>): (r: FormValidation)
    ensures r == FormError("users must be number") <==> ParseInt(value).Failure?
    ensures r == FormError("users must be a positive number") <==> ParseInt(value).Success? && ParseInt(value).value < 1
    ensures r == FormOk <==> IsPositive(value)
  {
    match ParseInt(value)
    case Failure(_) => FormError("users must be number")
    case Success(users) => if users < 1 then FormError("users must be a positive number") else FormOk
  }

  function DoCheckRunningTime(value: Option<string>): (r: FormValidation)
    ensures r == FormError("running time must be number") <==> ParseInt(value).Failure?
    ensures r == FormError("running time must be a positive number") <==> ParseInt(value).Success? && ParseInt(value).value < 1
    ensures r == FormOk <==> IsPositive(value)
  {
    match ParseInt(value)
    case Failure(_) => FormError("running time must be number")
    case Success(runningTime) => if runningTime < 1 then FormError("running time must be a positive number") else FormOk
  }

  /** Note the source's message for a malformed rate reads "transactionRate time
      must be number". */
  function DoCheckTransactionRate(value: Option<string>): (r: FormValidation)
    ensures r == FormError("transactionRate time must be number") <==> ParseInt(value).Failure?
    ensures r == FormError("transactionRate must be a positive number") <==> ParseInt(value).Success? && ParseInt(value).value <= 0
    ensures r == FormOk <==> IsPositive(value)
  {
    match ParseInt(value)
    case Failure(_) => FormError("transactionRate time must be number")
    case Success(rate) => if rate <= 0 then FormError("transactionRate must be a positive number") else FormOk
  }

  /** The four checks accept exactly the same inputs: the strict test `<= 0` of
      the rate check and the test `< 1` of the others agree on integers. */
  lemma ChecksAgree(value: Option<string>)
    ensures DoCheckPort(value).FormOk? == DoCheckUsers(value).FormOk?
    ensures DoCheckUsers(value).FormOk? == DoCheckRunningTime(value).FormOk?
    ensures DoCheckRunningTime(value).FormOk? == DoCheckTransactionRate(value).FormOk?
  {
  }

  /** Every positive `int`, written as Java writes it, passes every check. */
  lemma FormattedPositivePasses(n: int32)
    requires n >= 1
    ensures DoCheckPort(Some(FormatInt(n))) == FormOk
    ensures DoCheckUsers(Some(FormatInt(n))) == FormOk
    ensures DoCheckRunningTime(Some(FormatInt(n))) == FormOk
    ensures DoCheckTransactionRate(Some(FormatInt(n))) == FormOk
  {
    ParseFormatRoundTrip(n);
  }

  /** Every zero or negative `int`, written as Java writes it, is reported as not
      positive rather than as malformed. */
  lemma FormattedNonPositiveRejected(n: int32)
    requires n < 1
    ensures DoCheckPort(Some(FormatInt(n))) == FormError("port must be a positive number")
    ensures DoCheckUsers(Some(FormatInt(n))) == FormError("users must be a positive number")
    ensures DoCheckRunningTime(Some(FormatInt(n))) == FormError("running time must be a positive number")
    ensures DoCheckTransactionRate(Some(FormatInt(n))) == FormError("transactionRate must be a positive number")
  {
    ParseFormatRoundTrip(n);
  }

  /** A number too large for an `int` is reported as malformed, not as too large. */
  lemma OverflowIsNotANumber(n: nat)
    requires n > MAX_INT
    ensures DoCheckPort(Some(NatToDigits(n))) == FormError("port must be number")
    ensures DoCheckUsers(Some(NatToDigits(n))) == FormError("users must be number")
    ensures DoCheckRunningTime(Some(NatToDigits(n))) == FormError("running time must be number")
    ensures DoCheckTransactionRate(Some(NatToDigits(n))) == FormError("transactionRate time must be number")
  {
    ParseRejectsOverflow(n);
  }
}
