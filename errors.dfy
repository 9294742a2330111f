/**
 * The package's exception classes (simplipy/errors.py) as a datatype of kinds.
 * Each class declares exactly one base class, so the hierarchy is a tree rooted
 * at SimplipyError (whose own base, Python's Exception, lies outside the package).
 * `IsA(k, a)` is Python's `issubclass(k, a)` restricted to these classes.
 */
module Errors {
  import opened Wrappers

  datatype ErrorKind =
    | SimplipyError
    | EndpointUnavailableError
    | InvalidCredentialsError
    | PinError
    | RequestError
    | WebsocketError
    | CannotConnectError
    | ConnectionClosedError
    | ConnectionFailedError
    | InvalidMessageError
    | NotConnectedError

  /** How far below the root a kind is declared: 0 for SimplipyError, 1 for the
      classes derived from it directly, 2 for the classes derived from WebsocketError. */
  function Level(k: ErrorKind): (n: nat)
    ensures n <= 2
  {
    match k
    case SimplipyError => 0
    case EndpointUnavailableError | InvalidCredentialsError | PinError
       | RequestError | WebsocketError => 1
    case CannotConnectError | ConnectionClosedError | ConnectionFailedError
       | InvalidMessageError | NotConnectedError => 2
  }

  /** The base class named in each class statement, when it is a package class. */
  function Parent(k: ErrorKind): (p: Option<ErrorKind>)
    ensures p.None? <==> k == SimplipyError
    ensures p.Some? ==> Level(p.value) + 1 == Level(k)
  {
    match k
    case SimplipyError => None
    case EndpointUnavailableError | InvalidCredentialsError | PinError
       | RequestError | WebsocketError => Some(SimplipyError)
    case CannotConnectError | ConnectionClosedError | ConnectionFailedError
       | InvalidMessageError | NotConnectedError => Some(WebsocketError)
  }

  /** `issubclass(k, ancestor)`: the ancestor is k itself or is reached by following bases. */
  predicate IsA(k: ErrorKind, ancestor: ErrorKind)
    decreases Level(k)
    ensures k == ancestor ==> IsA(k, ancestor)
    ensures IsA(k, ancestor) ==> Level(ancestor) <= Level(k)
    ensures IsA(k, ancestor) && k != ancestor ==> Parent(k).Some? && IsA(Parent(k).value, ancestor)
  {
    k == ancestor || (Parent(k).Some? && IsA(Parent(k).value, ancestor))
  }

  /** The method resolution order of a kind within the package: the kind, then its
      bases up to SimplipyError. */
  function Mro(k: ErrorKind): (chain: seq<ErrorKind>)
    decreases Level(k)
    ensures |chain| == Level(k) + 1
    ensures chain[0] == k && chain[|chain| - 1] == SimplipyError
    ensures forall i :: 0 <= i < |chain| - 1 ==> Parent(chain[i]) == Some(chain[i + 1])
  {
    match Parent(k)
    case None => [k]
    case Some(p) => [k] + Mro(p)
  }

  /** Python's `issubclass` agrees with membership in the method resolution order. */
  lemma {:induction false} IsAIffInMro(k: ErrorKind, a: ErrorKind)
    ensures IsA(k, a) <==> a in Mro(k)
    decreases Level(k)
  {
    match Parent(k)
    case None =>
    case Some(p) =>
      IsAIffInMro(p, a);
  }

  /** Every package error is a SimplipyError, so `except SimplipyError` catches all of them. */
  lemma {:induction false} EveryKindIsSimplipyError(k: ErrorKind)
    ensures IsA(k, SimplipyError)
    ensures SimplipyError in Mro(k)
    decreases Level(k)
  {
    match Parent(k)
    case None =>
    case Some(p) =>
      EveryKindIsSimplipyError(p);
  }

  /** SimplipyError is the root: it has no package parent and is-a nothing else. */
  lemma RootHasNoPackageParent(a: ErrorKind)
    ensures Parent(SimplipyError) == None
    ensures IsA(SimplipyError, a) <==> a == SimplipyError
  {
  }

  lemma IsAReflexive(k: ErrorKind)
    ensures IsA(k, k)
  {
  }

  lemma {:induction false} IsATransitive(a: ErrorKind, b: ErrorKind, c: ErrorKind)
    requires IsA(a, b) && IsA(b, c)
    ensures IsA(a, c)
    decreases Level(a)
  {
    if a != b {
      IsATransitive(Parent(a).value, b, c);
    }
  }

  /** Following the is-a relation never descends: an ancestor sits at a lower level,
      and at the same level only the kind itself is its own ancestor. */
  lemma {:induction false} IsALowersLevel(k: ErrorKind, a: ErrorKind)
    requires IsA(k, a)
    ensures Level(a) <= Level(k)
    ensures Level(a) == Level(k) ==> a == k
    decreases Level(k)
  {
    if k != a {
      IsALowersLevel(Parent(k).value, a);
    }
  }

  lemma IsAAntisymmetric(a: ErrorKind, b: ErrorKind)
    requires IsA(a, b) && IsA(b, a)
    ensures a == b
  {
    IsALowersLevel(a, b);
    IsALowersLevel(b, a);
  }

  /** The hierarchy is acyclic: no kind is an ancestor of its own parent. */
  lemma Acyclic(k: ErrorKind)
    requires Parent(k).Some?
    ensures !IsA(Parent(k).value, k)
  {
    if IsA(Parent(k).value, k) {
      IsALowersLevel(Parent(k).value, k);
    }
  }

  /** The hierarchy is at most two levels deep below the root. */
  lemma DepthAtMostTwo(k: ErrorKind)
    ensures |Mro(k)| <= 3
    ensures Level(k) == 2 ==> Parent(Parent(k).value) == Some(SimplipyError)
  {
  }

  /** Single inheritance: any two ancestors of one kind are ordered by is-a. */
  lemma {:induction false} AncestorsAreChained(k: ErrorKind, a: ErrorKind, b: ErrorKind)
    requires IsA(k, a) && IsA(k, b)
    ensures IsA(a, b) || IsA(b, a)
    decreases Level(k)
  {
    if k != a && k != b {
      AncestorsAreChained(Parent(k).value, a, b);
    }
  }

  /** The websocket family is exactly WebsocketError and the five classes declared on it. */
  lemma WebsocketFamily(k: ErrorKind)
    ensures IsA(k, WebsocketError) <==>
      k in {WebsocketError, CannotConnectError, ConnectionClosedError,
            ConnectionFailedError, InvalidMessageError, NotConnectedError}
    ensures k in {CannotConnectError, ConnectionClosedError, ConnectionFailedError,
                  InvalidMessageError, NotConnectedError}
      ==> Parent(k) == Some(WebsocketError)
  {
  }

  /** The direct subclasses of SimplipyError, and which of them are not websocket errors. */
  lemma DirectChildren(k: ErrorKind)
    ensures Parent(k) == Some(SimplipyError) <==>
      k in {EndpointUnavailableError, InvalidCredentialsError, PinError,
            RequestError, WebsocketError}
    ensures k in {EndpointUnavailableError, InvalidCredentialsError, PinError, RequestError}
      ==> !IsA(k, WebsocketError)
  {
  }

  /** InvalidCredentialsError and RequestError are leaves and share no subclass, so one
      failure is never both an authentication failure and a request failure. */
  lemma CredentialsAndRequestAreDisjoint(k: ErrorKind)
    ensures IsA(k, InvalidCredentialsError) ==> k == InvalidCredentialsError
    ensures IsA(k, RequestError) ==> k == RequestError
    ensures !(IsA(k, InvalidCredentialsError) && IsA(k, RequestError))
  {
  }
}
