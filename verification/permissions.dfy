/**
  The two role-based permissions guarding restaurant and provider data: a
  request-level check on the requester's role and an object-level check on
  ownership.
*/
module Permissions {
  import opened Results
  import opened Models

  /** The requester: an anonymous visitor or a signed-in user. */
  datatype Requester = Anonymous | SignedIn(user: User) {
    predicate IsAuthenticated() {
      SignedIn?
    }

    /** Model equality compares primary keys; an anonymous requester equals no user. */
    predicate Is(id: UserId) {
      SignedIn? && user.id == id
    }
  }

  /**
    One ownership attribute of an object: the attribute may be missing from
    the object, present but null, or pointing at an object owned by `owner`.
  */
  datatype Link = Absent | Null | Points(owner: UserId)

  /**
    The ownership attributes an object may carry: its own `user`, and a
    `restaurant` or `provider` whose `user` is the owner.
  */
  datatype Owned = Owned(user: Link, restaurant: Link, provider: Link)

  predicate HasRole(req: Requester, role: string) {
    req.IsAuthenticated() && req.user.role == role
  }

  /** Request-level check of the restaurant permission. */
  predicate RestaurantHasPermission(req: Requester) {
    HasRole(req, RestaurantRole)
  }

  /** Request-level check of the provider permission. */
  predicate ProviderHasPermission(req: Requester) {
    HasRole(req, ProviderRole)
  }

  /**
    Object-level ownership shared by both permissions. A present `user`
    attribute decides on its own, and a null one refuses. Without it the
    owner of the role-specific link decides; following a null role link
    raises (`Err`, an uncaught exception); with neither attribute, access is
    refused.
  */
  function OwnsThrough(req: Requester, obj: Owned, link: Link): (r: Result<bool, ()>)
    ensures obj.user.Points? ==> r == Ok(req.Is(obj.user.owner))
    ensures obj.user.Null? ==> r == Ok(false)
    ensures obj.user.Absent? && link.Points? ==> r == Ok(req.Is(link.owner))
    ensures obj.user.Absent? && link.Null? ==> r.Err?
    ensures obj.user.Absent? && link.Absent? ==> r == Ok(false)
    ensures r.Err? <==> obj.user.Absent? && link.Null?
    ensures r == Ok(true) ==> req.IsAuthenticated()
  {
    match obj.user
    case Points(owner) => Ok(req.Is(owner))
    case Null => Ok(false)
    case Absent =>
      match link
      case Points(owner) => Ok(req.Is(owner))
      case Null => Err(())
      case Absent => Ok(false)
  }

  /** Object-level check of the restaurant permission. */
  function RestaurantHasObjectPermission(req: Requester, obj: Owned): (r: Result<bool, ()>)
    ensures r.Err? <==> obj.user.Absent? && obj.restaurant.Null?
    ensures r == Ok(true) <==>
      (obj.user.Points? && req.Is(obj.user.owner)) ||
      (obj.user.Absent? && obj.restaurant.Points? && req.Is(obj.restaurant.owner))
  {
    OwnsThrough(req, obj, obj.restaurant)
  }

  /** Object-level check of the provider permission. */
  function ProviderHasObjectPermission(req: Requester, obj: Owned): (r: Result<bool, ()>)
    ensures r.Err? <==> obj.user.Absent? && obj.provider.Null?
    ensures r == Ok(true) <==>
      (obj.user.Points? && req.Is(obj.user.owner)) ||
      (obj.user.Absent? && obj.provider.Points? && req.Is(obj.provider.owner))
  {
    OwnsThrough(req, obj, obj.provider)
  }

  /**
    A role permission admits exactly the signed-in users of that role; since a
    user holds one role, no requester passes both.
  */
  lemma RolePermissionsExclusive(req: Requester)
    ensures RestaurantHasPermission(req) <==> req.SignedIn? && req.user.role == "restaurant"
    ensures ProviderHasPermission(req) <==> req.SignedIn? && req.user.role == "provider"
    ensures !(RestaurantHasPermission(req) && ProviderHasPermission(req))
  {
  }

  /**
    On an object that has a `user` attribute, null or not, both permissions
    give the same answer, whatever restaurant or provider link the object also
    carries, and neither raises.
  */
  lemma DirectLinkDecidesForBoth(req: Requester, obj: Owned)
    requires !obj.user.Absent?
    ensures RestaurantHasObjectPermission(req, obj) == ProviderHasObjectPermission(req, obj)
    ensures RestaurantHasObjectPermission(req, obj).Ok?
    ensures forall r, p :: RestaurantHasObjectPermission(req, obj.(restaurant := r, provider := p)) ==
                           RestaurantHasObjectPermission(req, obj)
  {
  }

  /**
    A null `user` attribute refuses every requester, even the owner named by
    the object's restaurant or provider link.
  */
  lemma NullUserLinkRefuses(req: Requester, obj: Owned)
    requires obj.user.Null?
    ensures RestaurantHasObjectPermission(req, obj) == Ok(false)
    ensures ProviderHasObjectPermission(req, obj) == Ok(false)
  {
  }

  /** Without a `user` attribute, a null role link raises in the permission that follows it. */
  lemma NullRoleLinkRaises(req: Requester, obj: Owned)
    requires obj.user.Absent?
    ensures RestaurantHasObjectPermission(req, obj).Err? <==> obj.restaurant.Null?
    ensures ProviderHasObjectPermission(req, obj).Err? <==> obj.provider.Null?
  {
  }

  /** An object without any ownership attribute is refused to every requester. */
  lemma UnownedObjectsAreRefused(req: Requester, obj: Owned)
    requires obj.user.Absent? && obj.restaurant.Absent? && obj.provider.Absent?
    ensures RestaurantHasObjectPermission(req, obj) == Ok(false)
    ensures ProviderHasObjectPermission(req, obj) == Ok(false)
  {
  }
}
