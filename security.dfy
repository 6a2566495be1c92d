/**
 * `checkSecurity`: which security predicate decides whether a request may
 * proceed.
 */
module Security {
  import opened Values
  import opened Types

  /** What a predicate is shown: the pre-fetched object and the user. */
  function Payload(context: Context): (p: SecurityPayload)
    ensures p.obj == context.previousObject && p.user == context.security.user
  {
    SecurityPayload(context.previousObject, context.security.user)
  }

  /** The operation's predicate decides when it has one; otherwise the
      resource's; with neither, access is granted. */
  function CheckSecurity(resource: ModelResource, operation: Operation, context: Context): (allowed: bool)
    ensures !allowed ==> operation.Base().security.Some? || resource.security.Some?
  {
    match operation.Base().security
    case Some(check) => check(Payload(context))
    case None =>
      match resource.security
      case Some(check) => check(Payload(context))
      case None => true
  }

  /** An operation's own predicate shadows the resource's: swapping the
      resource's predicate (or dropping it) never changes the verdict. */
  lemma {:induction false} OperationPredicateShadows(resource: ModelResource, other: ModelResource, operation: Operation, context: Context)
    requires operation.Base().security.Some?
    ensures CheckSecurity(resource, operation, context) == CheckSecurity(other, operation, context)
    ensures CheckSecurity(resource, operation, context) == operation.Base().security.value(Payload(context))
  {
  }

  /** Without an operation predicate, the resource's predicate decides. */
  lemma {:induction false} ResourcePredicateDecides(resource: ModelResource, operation: Operation, context: Context)
    requires operation.Base().security.None? && resource.security.Some?
    ensures CheckSecurity(resource, operation, context) == resource.security.value(Payload(context))
  {
  }

  /** The verdict depends on the context only through the pre-fetched object
      and the user: the model, the store and the authentication flag are never
      consulted. */
  lemma {:induction false} OnlyObjectAndUserMatter(resource: ModelResource, operation: Operation, context: Context, other: Context)
    requires context.previousObject == other.previousObject
    requires context.security.user == other.security.user
    ensures CheckSecurity(resource, operation, context) == CheckSecurity(resource, operation, other)
  {
    assert Payload(context) == Payload(other);
  }

  /** A predicate that accepts every payload never denies, whichever level it
      sits at; with no predicate at all, every request is allowed. */
  lemma {:induction false} AcceptingPredicatesAllow(resource: ModelResource, operation: Operation, context: Context)
    requires operation.Base().security.Some? ==> forall p :: operation.Base().security.value(p)
    requires operation.Base().security.None? && resource.security.Some? ==> forall p :: resource.security.value(p)
    ensures CheckSecurity(resource, operation, context)
  {
  }
}
