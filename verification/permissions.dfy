/**
  The caller of a request and the permission predicates the views compose
  (api/permissions.py). Each predicate is a pure boolean decision over the
  caller's fields, the request method, or the customer of an order.
 */
module Permissions {

  type UserId = nat

  /** The two values of a profile's `user_type` that the predicates test. */
  const ADMIN: string := "admin"
  const CUSTOMER: string := "customer"

  /** The caller as the authentication layer resolves it. An anonymous caller
      is never a superuser and has no profile; a member is authenticated and
      carries its profile's user type and its superuser flag. */
  datatype Actor =
    | Anonymous
    | Member(id: UserId, userType: string, isSuperuser: bool)

  datatype HttpMethod = GET | HEAD | OPTIONS | POST | PUT | PATCH | DELETE

  /** The methods the framework treats as safe (read-only). */
  const SAFE_METHODS: set<HttpMethod> := {GET, HEAD, OPTIONS}

  predicate IsAuthenticated(actor: Actor) {
    actor.Member?
  }

  predicate IsSuperuser(actor: Actor) {
    actor.Member? && actor.isSuperuser
  }

  /** `profile.is_admin()`: the profile's user type is "admin". The superuser
      flag plays no part. Only members have a profile. */
  predicate ProfileIsAdmin(actor: Actor)
    requires actor.Member?
  {
    actor.userType == ADMIN
  }

  /** `IsAdminUser.has_permission`: an authenticated admin, or any superuser. */
  predicate IsAdminUser(actor: Actor) {
    (IsAuthenticated(actor) && actor.userType == ADMIN) || IsSuperuser(actor)
  }

  /** `IsCustomer.has_permission`: an authenticated customer. */
  predicate IsCustomer(actor: Actor) {
    IsAuthenticated(actor) && actor.userType == CUSTOMER
  }

  /** `IsOrderOwner.has_object_permission`: the order's customer is the caller.
      An anonymous caller owns nothing. */
  predicate IsOrderOwner(actor: Actor, orderCustomer: UserId) {
    actor.Member? && orderCustomer == actor.id
  }

  /** `ReadOnly.has_permission`: the request method is safe, whoever asks. */
  predicate ReadOnly(verb: HttpMethod) {
    verb in SAFE_METHODS
  }

  /** An anonymous caller holds neither role. */
  lemma AnonymousHasNoRole(orderCustomer: UserId)
    ensures !IsCustomer(Anonymous) && !IsAdminUser(Anonymous)
    ensures !IsOrderOwner(Anonymous, orderCustomer)
  {
  }

  /** Without the superuser override the two roles exclude each other, since
      they test different user types. */
  lemma RolesExclusive(actor: Actor)
    requires !IsSuperuser(actor)
    ensures !(IsAdminUser(actor) && IsCustomer(actor))
  {
  }

  /** The superuser override is an OR: a superuser is an admin user whatever
      its user type, and even a superuser customer stays a customer. */
  lemma SuperuserOverride(id: UserId, userType: string)
    ensures IsAdminUser(Member(id, userType, true))
    ensures IsCustomer(Member(id, userType, true)) <==> userType == CUSTOMER
  {
  }

  /** A member whose profile says admin passes `IsAdminUser`; the converse
      fails only for superusers. */
  lemma ProfileAdminIsAdminUser(actor: Actor)
    requires actor.Member?
    ensures ProfileIsAdmin(actor) ==> IsAdminUser(actor)
    ensures IsAdminUser(actor) && !actor.isSuperuser ==> ProfileIsAdmin(actor)
  {
  }

  /** `ReadOnly` lets exactly the safe methods through and ignores the caller. */
  lemma ReadOnlyExactlySafe(verb: HttpMethod)
    ensures ReadOnly(verb) <==> verb != POST && verb != PUT && verb != PATCH && verb != DELETE
  {
  }
}
