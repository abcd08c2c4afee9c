/** The errors the services throw: `UserAlreadyExistsError`,
    `UserEmailNotFoundError`, `UserIDNotFoundError` (src/services/IUserService.ts),
    `TransactionInsufficientFundsError` (src/services/ITransactionService.ts),
    and a raw store error that a service rethrows unclassified. */
module ServiceErrors {
  import opened PrismaUtil
  import Text

  datatype ServiceError =
    | UserAlreadyExists(email: string)
    | UserEmailNotFound(email: string)
    | UserIDNotFound(user_id: string)
    | InsufficientFunds(user_id: string, amount: int)
    | Unclassified(cause: RawError)

  /** The `name` each error class sets, its class name, which ends in
      "Error"; a rethrown error keeps its own. */
  function Name(e: ServiceError): (r: string)
    requires !e.Unclassified?
    ensures |r| > 5 && r[|r| - 5..] == "Error"
  {
    match e
    case UserAlreadyExists(_) => "UserAlreadyExistsError"
    case UserEmailNotFound(_) => "UserEmailNotFoundError"
    case UserIDNotFound(_) => "UserIDNotFoundError"
    case InsufficientFunds(_, _) => "TransactionInsufficientFundsError"
  }

  const InsufficientFundsPrefix := "Transaction cannot be completed because the from-user does not have sufficient funds: "

  /** The `message` passed to `super(...)` by each constructor: it quotes the
      email or the id the error carries, an insufficient-funds message ends
      with the sender's id, and a rethrown error keeps its own message. */
  function Message(e: ServiceError): (r: string)
    ensures e.UserAlreadyExists? || e.UserEmailNotFound? ==> Text.Contains(r, e.email)
    ensures e.UserIDNotFound? ==> Text.Contains(r, e.user_id)
    ensures e.InsufficientFunds? ==> |r| >= |e.user_id| && r[|r| - |e.user_id|..] == e.user_id
    ensures e.Unclassified? ==> r == e.cause.message
  {
    match e
    case UserAlreadyExists(email) =>
      Text.ContainsWitness("User with email '" + email + "' already exists.", "User with email '", email, "' already exists.");
      "User with email '" + email + "' already exists."
    case UserEmailNotFound(email) =>
      Text.ContainsWitness("User with email '" + email + "' not found.", "User with email '", email, "' not found.");
      "User with email '" + email + "' not found."
    case UserIDNotFound(id) =>
      Text.ContainsWitness("User with ID '" + id + "' not found.", "User with ID '", id, "' not found.");
      "User with ID '" + id + "' not found."
    case InsufficientFunds(id, _) => InsufficientFundsPrefix + id
    case Unclassified(cause) => cause.message
  }

  predicate SameClass(a: ServiceError, b: ServiceError) {
    && a.UserAlreadyExists? == b.UserAlreadyExists?
    && a.UserEmailNotFound? == b.UserEmailNotFound?
    && a.UserIDNotFound? == b.UserIDNotFound?
    && a.InsufficientFunds? == b.InsufficientFunds?
  }

  /** The character at which the names part: the first tells the funds
      error from the user errors, the fifth the user errors apart. */
  lemma NameMarks(e: ServiceError)
    requires !e.Unclassified?
    ensures Name(e)[0] == (if e.InsufficientFunds? then 'T' else 'U')
    ensures e.UserAlreadyExists? ==> Name(e)[4] == 'A'
    ensures e.UserEmailNotFound? ==> Name(e)[4] == 'E'
    ensures e.UserIDNotFound? ==> Name(e)[4] == 'I'
  {
    match e
    case UserAlreadyExists(_) => assert Name(e) == "UserAlreadyExistsError";
    case UserEmailNotFound(_) => assert Name(e) == "UserEmailNotFoundError";
    case UserIDNotFound(_) => assert Name(e) == "UserIDNotFoundError";
    case InsufficientFunds(_, _) => assert Name(e) == "TransactionInsufficientFundsError";
  }

  /** Each class has its own name, so `instanceof` tests and names agree. */
  lemma NamesDistinct(a: ServiceError, b: ServiceError)
    requires !a.Unclassified? && !b.Unclassified?
    ensures Name(a) == Name(b) <==> SameClass(a, b)
  {
    NameMarks(a);
    NameMarks(b);
  }

  lemma Unwrap(pre: string, x: string, y: string, post: string)
    requires pre + x + post == pre + y + post
    ensures x == y
  {
    var s := pre + x + post;
    assert |x| == |y|;
    assert x == s[|pre|..|pre| + |x|];
    assert y == (pre + y + post)[|pre|..|pre| + |y|];
  }

  /** The message of each user error determines the email or id it
      carries: the constructors keep exactly what they were given. */
  lemma MessagesDetermineFields(a: string, b: string)
    ensures Message(UserAlreadyExists(a)) == Message(UserAlreadyExists(b)) ==> a == b
    ensures Message(UserEmailNotFound(a)) == Message(UserEmailNotFound(b)) ==> a == b
    ensures Message(UserIDNotFound(a)) == Message(UserIDNotFound(b)) ==> a == b
  {
    if Message(UserAlreadyExists(a)) == Message(UserAlreadyExists(b)) {
      Unwrap("User with email '", a, b, "' already exists.");
    }
    if Message(UserEmailNotFound(a)) == Message(UserEmailNotFound(b)) {
      Unwrap("User with email '", a, b, "' not found.");
    }
    if Message(UserIDNotFound(a)) == Message(UserIDNotFound(b)) {
      Unwrap("User with ID '", a, b, "' not found.");
    }
  }
}
