/**
  The client's error taxonomy (`Client::Error` and its subclasses) placed in
  the part of Ruby's exception hierarchy the client meets: the transport's
  timeouts and socket errors, the JSON parser's error, and the errors the
  interpreter raises. A `rescue` clause catches an exception exactly when the
  exception's class is the rescued class or a descendant of it, which
  `IsA` states.
 */
module Errors {
  import opened Wrappers
  import opened Json

  /** The classes declared in the client's errors file. `Error` is `Client::Error`. */
  datatype Kind =
    | Error
    | Unauthorized
    | Forbidden
    | NotFound
    | Conflict
    | Timeout
    | ServerError
    | BadGateway
    | ValidationError
    | ConnectionError
    | UnexpectedResponse

  /** Exception classes. Intermediate library classes that no rescue names are collapsed into their parents. */
  datatype ErrorClass =
    | RubyException       // Exception, the root
    | StandardError
    | RuntimeError        // what `raise "text"` raises
    | ArgumentError
    | TypeError
    | NoMethodError
    | ParserError         // JSON::ParserError
    | OpenTimeout         // Net::OpenTimeout
    | ReadTimeout         // Net::ReadTimeout
    | ConnectionRefused   // Errno::ECONNREFUSED
    | SocketError
    | OtherStandardError  // any other StandardError
    | OtherException      // an Exception outside StandardError, such as Interrupt
    | Client(kind: Kind)

  /** The direct superclass; only the root has none. */
  function Superclass(c: ErrorClass): (r: Option<ErrorClass>)
    ensures r.None? <==> c == RubyException
  {
    match c
    case RubyException => None
    case StandardError | OtherException => Some(RubyException)
    case OpenTimeout | ReadTimeout => Some(RuntimeError)  // through Timeout::Error
    case Client(k) =>
      if k == Error then Some(StandardError)
      else if k == BadGateway then Some(Client(ServerError))
      else Some(Client(Error))
    case _ => Some(StandardError)
  }

  /** The class followed by its superclasses, up to the root. */
  function Ancestors(c: ErrorClass): (a: seq<ErrorClass>)
    ensures a != [] && a[0] == c && a[|a| - 1] == RubyException
  {
    match c
    case RubyException => [c]
    case StandardError | OtherException => [c, RubyException]
    case OpenTimeout | ReadTimeout => [c, RuntimeError, StandardError, RubyException]
    case Client(k) =>
      if k == Error then [c, StandardError, RubyException]
      else if k == BadGateway then [c, Client(ServerError), Client(Error), StandardError, RubyException]
      else [c, Client(Error), StandardError, RubyException]
    case _ => [c, StandardError, RubyException]
  }

  /** The ancestor chain is the superclass relation followed to the root. */
  lemma AncestorsFollowSuperclass(c: ErrorClass)
    ensures Superclass(c).None? ==> Ancestors(c) == [c]
    ensures Superclass(c).Some? ==> Ancestors(c) == [c] + Ancestors(Superclass(c).value)
  {
  }

  /** `c` is `ancestor` or inherits from it: a `rescue ancestor` catches `c`. */
  predicate IsA(c: ErrorClass, ancestor: ErrorClass) {
    ancestor in Ancestors(c)
  }

  /** A raised exception: its class and the object given to `raise` as its message. */
  datatype Exception = Exception(cls: ErrorClass, message: Json)

  /** The outcome of evaluating Ruby code: a value, or an exception on its way out. */
  datatype Result<+T> = Ok(value: T) | Err(error: Exception)

  /** Every taxonomy kind is a `Client::Error`. */
  lemma KindIsClientError(k: Kind)
    ensures IsA(Client(k), Client(Error))
  {
  }

  /** Every taxonomy kind is a StandardError, so `rescue StandardError` catches it. */
  lemma KindIsStandardError(k: Kind)
    ensures IsA(Client(k), StandardError)
  {
    assert IsA(Client(Error), StandardError);
    if k != Error {
      assert IsA(Client(ServerError), StandardError);
    }
  }

  /** A taxonomy class inherits only from taxonomy classes, StandardError and the root. */
  lemma ClientAncestors(k: Kind, c: ErrorClass)
    requires IsA(Client(k), c)
    ensures c.Client? || c == StandardError || c == RubyException
  {
  }

  /** BadGateway is a ServerError. */
  lemma BadGatewayIsServerError()
    ensures IsA(Client(BadGateway), Client(ServerError))
  {
  }

  /** Apart from every kind being an `Error`, the only nesting in the taxonomy is BadGateway under ServerError. */
  lemma KindNesting(a: Kind, b: Kind)
    requires a != b && b != Error
    ensures IsA(Client(a), Client(b)) <==> a == BadGateway && b == ServerError
  {
    if IsA(Client(a), Client(b)) && a != BadGateway {
      ClientAncestors(Error, Client(b));
    }
  }

  /** Inheritance is transitive. */
  lemma IsATransitive(a: ErrorClass, b: ErrorClass, c: ErrorClass)
    requires IsA(a, b) && IsA(b, c)
    ensures IsA(a, c)
  {
  }

  /** Distinct classes never inherit from each other both ways. */
  lemma IsAAntisymmetric(a: ErrorClass, b: ErrorClass)
    requires IsA(a, b) && IsA(b, a)
    ensures a == b
  {
  }

  /** The transport classes the client rescues are not taxonomy classes, and no taxonomy class inherits from them. */
  lemma TransportClassesAreForeign(k: Kind, c: ErrorClass)
    requires c in {OpenTimeout, ReadTimeout, ConnectionRefused, SocketError}
    ensures !IsA(Client(k), c) && !IsA(c, Client(Error))
  {
    if IsA(Client(k), c) {
      ClientAncestors(k, c);
    }
  }
}
