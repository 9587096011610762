/**
 * The request handlers of mediater/views.py over a store of records: who may
 * call each one, the listings they return, the verification flag that
 * approval flips, and the product upload that only a verified seller passes.
 * Calls are taken one at a time.
 */
module Views {
  import opened Wrappers
  import opened Models
  import opened Serializers
  import Text

  // ---------------------------------------------------------------- access

  /** Who sends a request: nobody signed in, or a signed-in user. */
  datatype Requester = Anonymous | SignedIn(user: UserId)

  /** The permission classes the handlers use. */
  datatype Permission = AllowAny | IsAuthenticated | IsAdminUser

  /** How a request fails: 401, 403, 404, 400, and 500 for the unhandled multiple match. */
  datatype Failure = NotAuthenticated | Forbidden | NotFound | BadRequest | MultipleMatches

  /** What the verify endpoint answers: 200 whatever the action, or a refusal. */
  datatype Outcome = Done | Refused(failure: Failure)

  /** The staff flag of the requester's user record; it is not the admin profile. */
  predicate IsStaff(users: map<UserId, User>, req: Requester)
  {
    req.SignedIn? && req.user in users && users[req.user].isStaff
  }

  /**
   * Why a permission turns a requester away, if it does: an anonymous
   * requester gets 401, a signed-in one 403.
   */
  function Denial(p: Permission, req: Requester, users: map<UserId, User>): (r: Option<Failure>)
    ensures r.None? <==> p == AllowAny || (p == IsAuthenticated && req.SignedIn?) || (p == IsAdminUser && IsStaff(users, req))
    ensures r.Some? ==> (r.value == NotAuthenticated <==> req.Anonymous?)
    ensures r.Some? ==> r.value == NotAuthenticated || r.value == Forbidden
  {
    match p
    case AllowAny => None
    case IsAuthenticated => if req.SignedIn? then None else Some(NotAuthenticated)
    case IsAdminUser =>
      if IsStaff(users, req) then None
      else if req.Anonymous? then Some(NotAuthenticated)
      else Some(Forbidden)
  }

  // The permission of each handler, as declared.
  const PendingPermission: Permission := IsAuthenticated
  const VerifiedListPermission: Permission := AllowAny
  const ApprovePermission: Permission := IsAuthenticated
  const NotificationsPermission: Permission := IsAuthenticated
  const UploadPermission: Permission := IsAuthenticated
  const AdminListPermission: Permission := IsAdminUser
  const VerifyPermission: Permission := IsAdminUser

  /** The approve endpoint admits every signed-in user: a seller can approve its own profile. */
  lemma SellerMayApproveItself(users: map<UserId, User>, sellers: map<SellerId, Seller>, sid: SellerId)
    requires sid in sellers
    ensures Denial(ApprovePermission, SignedIn(sellers[sid].user), users).None?
    ensures SetVerified(sellers, sid, true)[sid].isVerified
  {
  }

  /** The verify endpoint and the full seller list need the staff flag; an admin profile without it is refused with 403. */
  lemma VerifyNeedsStaffFlag(users: map<UserId, User>, admins: map<AdminId, AdminProfile>, uid: UserId)
    requires uid in users && !users[uid].isStaff && HasAdminProfile(admins, uid)
    ensures Denial(VerifyPermission, SignedIn(uid), users) == Some(Forbidden)
    ensures Denial(AdminListPermission, SignedIn(uid), users) == Some(Forbidden)
  {
  }

  // ---------------------------------------------------------------- listings

  /** The sellers awaiting verification. */
  function Pending(sellers: map<SellerId, Seller>): (r: map<SellerId, Seller>)
    ensures forall s :: s in r <==> s in sellers && !sellers[s].isVerified
    ensures forall s :: s in r ==> r[s] == sellers[s]
  {
    map s | s in sellers && !sellers[s].isVerified :: sellers[s]
  }

  /** The verified sellers. */
  function Verified(sellers: map<SellerId, Seller>): (r: map<SellerId, Seller>)
    ensures forall s :: s in r <==> s in sellers && sellers[s].isVerified
    ensures forall s :: s in r ==> r[s] == sellers[s]
  {
    map s | s in sellers && sellers[s].isVerified :: sellers[s]
  }

  /** The sellers not yet told of their status. */
  function Unnotified(sellers: map<SellerId, Seller>): (r: map<SellerId, Seller>)
    ensures forall s :: s in r <==> s in sellers && !sellers[s].notified
    ensures forall s :: s in r ==> r[s] == sellers[s]
  {
    map s | s in sellers && !sellers[s].notified :: sellers[s]
  }

  /** Every seller is either pending or verified, never both. */
  lemma PendingVerifiedPartition(sellers: map<SellerId, Seller>)
    ensures Pending(sellers).Keys !! Verified(sellers).Keys
    ensures Pending(sellers).Keys + Verified(sellers).Keys == sellers.Keys
    ensures |Pending(sellers)| + |Verified(sellers)| == |sellers|
  {
    var p := Pending(sellers).Keys;
    var v := Verified(sellers).Keys;
    assert p + v == sellers.Keys;
    assert |p + v| == |p| + |v|;
    assert |Pending(sellers)| == |p| && |Verified(sellers)| == |v|;
  }

  /** The verified sellers as the public sees them. */
  function PublicListing(sellers: map<SellerId, Seller>, users: map<UserId, User>): (r: map<SellerId, PublicSeller>)
    requires forall s :: s in sellers ==> sellers[s].user in users
    ensures r.Keys == Verified(sellers).Keys
    ensures forall s :: s in r ==> r[s] == PublicView(sellers[s], users) && r[s].isVerified
  {
    map s | s in sellers && sellers[s].isVerified :: PublicView(sellers[s], users)
  }

  // ---------------------------------------------------------------- verification

  /** The sellers with one profile's flag set to `v`. */
  function SetVerified(sellers: map<SellerId, Seller>, id: SellerId, v: bool): (r: map<SellerId, Seller>)
    requires id in sellers
    ensures r.Keys == sellers.Keys
    ensures r[id] == sellers[id].(isVerified := v)
    ensures forall s :: s in sellers && s != id ==> r[s] == sellers[s]
  {
    sellers[id := sellers[id].(isVerified := v)]
  }

  /** The flag a verify action leaves: `approve` sets it, `reject` clears it, anything else keeps it. */
  function NextVerified(action: Option<string>, current: bool): (v: bool)
    ensures action == Some("approve") ==> v
    ensures action == Some("reject") ==> !v
    ensures action != Some("approve") && action != Some("reject") ==> v == current
  {
    if action == Some("approve") then true
    else if action == Some("reject") then false
    else current
  }

  /** Approving twice is approving once. */
  lemma ApproveIdempotent(sellers: map<SellerId, Seller>, id: SellerId)
    requires id in sellers
    ensures SetVerified(SetVerified(sellers, id, true), id, true) == SetVerified(sellers, id, true)
  {
  }

  /** Of two settings of the same flag the last one wins; rejecting after approving leaves the seller pending. */
  lemma LastSettingWins(sellers: map<SellerId, Seller>, id: SellerId, first: bool, second: bool)
    requires id in sellers
    ensures SetVerified(SetVerified(sellers, id, first), id, second) == SetVerified(sellers, id, second)
    ensures id in Pending(SetVerified(SetVerified(sellers, id, true), id, false))
  {
  }

  /** A verify action that is neither `approve` nor `reject` leaves the sellers as they were. */
  lemma OtherActionChangesNothing(sellers: map<SellerId, Seller>, id: SellerId, action: Option<string>)
    requires id in sellers
    requires action != Some("approve") && action != Some("reject")
    ensures SetVerified(sellers, id, NextVerified(action, sellers[id].isVerified)) == sellers
  {
  }

  /** Setting the flag moves the seller to the matching listing and leaves the unnotified listing as it was. */
  lemma SetVerifiedMovesSeller(sellers: map<SellerId, Seller>, id: SellerId, v: bool)
    requires id in sellers
    ensures v ==> id in Verified(SetVerified(sellers, id, v)) && id !in Pending(SetVerified(sellers, id, v))
    ensures !v ==> id in Pending(SetVerified(sellers, id, v)) && id !in Verified(SetVerified(sellers, id, v))
    ensures Unnotified(SetVerified(sellers, id, v)).Keys == Unnotified(sellers).Keys
    ensures forall s :: s != id ==> (s in Verified(sellers) <==> s in Verified(SetVerified(sellers, id, v)))
  {
    var r := SetVerified(sellers, id, v);
    assert forall s :: s in r ==> r[s].notified == sellers[s].notified;
  }

  /** Changing one seller's flag keeps the schema's guarantees. */
  lemma SetVerifiedKeepsIntegrity(t: Tables, id: SellerId, v: bool, r: Tables)
    requires Integrity(t) && id in t.sellers
    requires r == t.(sellers := SetVerified(t.sellers, id, v))
    ensures Integrity(r)
  {
    assert forall s :: s in r.sellers ==> r.sellers[s].user == t.sellers[s].user;
    assert SellersOk(r.sellers, r.users);
    assert ProductsOk(r.products, r.sellers) && ReviewsOk(r.reviews, r.sellers, r.buyers);
  }

  /** Adding a product of an existing seller, at a fresh key and fitting its columns, keeps the schema's guarantees. */
  lemma AddProductKeepsIntegrity(t: Tables, pid: ProductId, p: Product, r: Tables)
    requires Integrity(t) && p.seller in t.sellers && ProductFits(p)
    requires r == t.(products := t.products[pid := p])
    ensures Integrity(r)
  {
    assert ProductsOk(r.products, r.sellers);
  }

  /** Adding a user that fits its columns, with a new username, at a fresh key keeps the schema's guarantees. */
  lemma AddUserKeepsIntegrity(t: Tables, uid: UserId, u: User, r: Tables)
    requires Integrity(t) && uid !in t.users && UserFits(u)
    requires forall x :: x in t.users ==> t.users[x].username != u.username
    requires r == t.(users := t.users[uid := u])
    ensures Integrity(r)
  {
    assert UsersOk(r.users);
    assert SellersOk(r.sellers, r.users) && BuyersOk(r.buyers, r.users) && AdminsOk(r.admins, r.users);
  }

  /** Adding a seller profile that fits its columns at a fresh key, for an existing user that has none, keeps the schema's guarantees. */
  lemma AddSellerKeepsIntegrity(t: Tables, sid: SellerId, s: Seller, r: Tables)
    requires Integrity(t) && sid !in t.sellers && s.user in t.users && SellerFits(s)
    requires forall x :: x in t.sellers ==> t.sellers[x].user != s.user
    requires r == t.(sellers := t.sellers[sid := s])
    ensures Integrity(r)
  {
    assert SellersOk(r.sellers, r.users);
    assert ProductsOk(r.products, r.sellers) && ReviewsOk(r.reviews, r.sellers, r.buyers);
  }

  /** Replacing a seller profile by one that fits its columns and links to an existing user no other profile has keeps the schema's guarantees. */
  lemma ReplaceSellerKeepsIntegrity(t: Tables, id: SellerId, s: Seller, r: Tables)
    requires Integrity(t) && id in t.sellers && s.user in t.users && SellerFits(s)
    requires forall x :: x in t.sellers && x != id ==> t.sellers[x].user != s.user
    requires r == t.(sellers := t.sellers[id := s])
    ensures Integrity(r)
  {
    assert SellersOk(r.sellers, r.users);
    assert ProductsOk(r.products, r.sellers) && ReviewsOk(r.reviews, r.sellers, r.buyers);
  }

  /**
   * The full update on the approve route needs only a signed-in user, yet it
   * reaches the state the staff-only verify endpoint reaches: it sets or
   * clears the flag of any seller whose stored fields are well-formed.
   */
  lemma FullUpdateActsAsVerify(users: map<UserId, User>, sellers: map<SellerId, Seller>, id: SellerId, v: bool, req: Requester)
    requires id in sellers && OneSellerPerUser(sellers) && sellers[id].user in users
    requires Resubmittable(sellers[id].businessName, Some(BusinessNameMax))
    requires Resubmittable(sellers[id].ownerName, Some(OwnerNameMax))
    requires Resubmittable(sellers[id].phoneNumber, Some(PhoneNumberMax))
    requires Resubmittable(sellers[id].businessId, Some(BusinessIdMax))
    requires Resubmittable(sellers[id].address, None)
    requires req.SignedIn?
    ensures Denial(ApprovePermission, req, users).None?
    ensures var u := CleanSellerUpdate(FlagOnly(sellers[id], v), id, users, sellers);
      u.Ok? && sellers[id := u.value] == SetVerified(sellers, id, v)
  {
    FullUpdateSetsFlag(users, sellers, id, v);
  }

  /** Every key of an auto-increment table is below the next key it will hand out. */
  predicate KeysBelow<V>(m: map<nat, V>, next: nat)
  {
    forall k :: k in m ==> k < next
  }

  // ---------------------------------------------------------------- lookup by business name

  /** The verified sellers whose business name matches the stripped name case-insensitively. */
  function BusinessMatches(sellers: map<SellerId, Seller>, name: string): (r: set<SellerId>)
    ensures forall s :: s in r <==>
      s in sellers && sellers[s].isVerified && Text.EqualsIgnoringCase(sellers[s].businessName, Text.Trim(name))
  {
    set s | s in sellers && sellers[s].isVerified && Text.EqualsIgnoringCase(sellers[s].businessName, Text.Trim(name))
  }

  /**
   * The single verified seller whose business name matches; not found when
   * none does, and the unhandled multiple-match error when several do.
   */
  function LookupByBusiness(sellers: map<SellerId, Seller>, name: string): (r: Result<SellerId, Failure>)
    ensures r.Ok? ==>
      && r.value in sellers && sellers[r.value].isVerified
      && Text.EqualsIgnoringCase(sellers[r.value].businessName, Text.Trim(name))
    ensures r.Ok? ==> BusinessMatches(sellers, name) == {r.value}
    ensures r == Err(NotFound) <==> BusinessMatches(sellers, name) == {}
    ensures r == Err(MultipleMatches) <==> |BusinessMatches(sellers, name)| > 1
    ensures r.Err? ==> r.error == NotFound || r.error == MultipleMatches
  {
    var found := BusinessMatches(sellers, name);
    if found == {} then Err(NotFound)
    else if |found| > 1 then Err(MultipleMatches)
    else
      var s :| s in found;
      assert found == {s} by {
        assert |found - {s}| == |found| - 1 == 0;
      }
      Ok(s)
  }

  /** Names that agree up to case and surrounding whitespace find the same seller. */
  lemma LookupIgnoresCaseAndWhitespace(sellers: map<SellerId, Seller>, name: string, other: string)
    requires Text.EqualsIgnoringCase(Text.Trim(name), Text.Trim(other))
    ensures LookupByBusiness(sellers, name) == LookupByBusiness(sellers, other)
  {
    assert BusinessMatches(sellers, name) == BusinessMatches(sellers, other);
  }

  /** A pending seller is never found by name, whatever name is asked for. */
  lemma LookupSkipsPending(sellers: map<SellerId, Seller>, name: string, id: SellerId)
    requires id in sellers && !sellers[id].isVerified
    ensures LookupByBusiness(sellers, name) != Ok(id)
  {
  }

  /** A verified seller whose name is the only match is what the lookup returns. */
  lemma LookupFindsSoleMatch(sellers: map<SellerId, Seller>, name: string, id: SellerId)
    requires id in sellers && sellers[id].isVerified
    requires Text.EqualsIgnoringCase(sellers[id].businessName, Text.Trim(name))
    requires forall s :: s in sellers && s != id && sellers[s].isVerified ==>
      !Text.EqualsIgnoringCase(sellers[s].businessName, Text.Trim(name))
    ensures LookupByBusiness(sellers, name) == Ok(id)
  {
    var found := BusinessMatches(sellers, name);
    assert id in found;
    assert found == {id};
  }

  /** The sole verified seller named "Acme" is found as " acme ". */
  lemma AcmeFoundAsLowerCase(sellers: map<SellerId, Seller>, id: SellerId)
    requires id in sellers && sellers[id].isVerified && sellers[id].businessName == "Acme"
    requires forall s :: s in sellers && s != id ==> !sellers[s].isVerified
    ensures LookupByBusiness(sellers, " acme ") == Ok(id)
  {
    AcmeMatchesPaddedLowerCase();
    LookupFindsSoleMatch(sellers, " acme ", id);
  }

  lemma AcmeMatchesPaddedLowerCase()
    ensures Text.EqualsIgnoringCase("Acme", Text.Trim(" acme "))
  {
    assert Text.Trim(" acme ") == "acme" by {
      assert " acme " == " " + "acme" + " ";
      Text.TrimPadded(" ", "acme", " ");
    }
    var upper, lower := Text.UpperAll("Acme"), Text.UpperAll("acme");
    assert Text.Upper('a') == 'A';
    assert upper[0] == lower[0] && upper[1] == lower[1] && upper[2] == lower[2] && upper[3] == lower[3];
    assert |upper| == 4 == |lower|;
    assert upper == lower;
  }

  // ---------------------------------------------------------------- the store

  /** The database the handlers work on, with the next key each table hands out. */
  class Store {
    var users: map<UserId, User>
    var sellers: map<SellerId, Seller>
    var products: map<ProductId, Product>
    var buyers: map<BuyerId, Buyer>
    var reviews: map<ReviewId, Review>
    var admins: map<AdminId, AdminProfile>
    var nextUserId: nat
    var nextSellerId: nat
    var nextProductId: nat

    function Snapshot(): Tables
      reads this
    {
      Tables(users, sellers, products, buyers, reviews, admins)
    }

    ghost predicate Valid()
      reads this
    {
      && Integrity(Snapshot())
      && KeysBelow(users, nextUserId)
      && KeysBelow(sellers, nextSellerId)
      && KeysBelow(products, nextProductId)
    }

    /** A store over an existing database. */
    constructor (db: Tables, nextUserId: nat, nextSellerId: nat, nextProductId: nat)
      requires Integrity(db)
      requires forall u :: u in db.users ==> u < nextUserId
      requires forall s :: s in db.sellers ==> s < nextSellerId
      requires forall p :: p in db.products ==> p < nextProductId
      ensures Valid() && Snapshot() == db
      ensures this.nextUserId == nextUserId && this.nextSellerId == nextSellerId && this.nextProductId == nextProductId
    {
      users, sellers, products := db.users, db.sellers, db.products;
      buyers, reviews, admins := db.buyers, db.reviews, db.admins;
      this.nextUserId, this.nextSellerId, this.nextProductId := nextUserId, nextSellerId, nextProductId;
    }

    function Usernames(): (names: set<string>)
      reads this
      ensures forall n :: n in names <==> exists u :: u in users && users[u].username == n
    {
      set u | u in users :: users[u].username
    }

    /**
     * Seller registration: validation, then the records it creates; on a
     * validation error, or when the database refuses the username, nothing
     * changes.
     */
    method Register(input: RegisterInput, isEmail: string -> bool) returns (r: Result<SellerId, RegisterError>)
      requires Valid()
      modifies this`users, this`sellers, this`nextUserId, this`nextSellerId
      ensures Valid()
      ensures ValidateRegistration(input, old(Usernames()), isEmail).Err? ==>
        && r == Err(ValidateRegistration(input, old(Usernames()), isEmail).error)
        && users == old(users) && sellers == old(sellers)
        && nextUserId == old(nextUserId) && nextSellerId == old(nextSellerId)
      ensures ValidateRegistration(input, old(Usernames()), isEmail).Ok? &&
              |ValidateRegistration(input, old(Usernames()), isEmail).value.email| > UsernameMax ==>
        && r == Err(UsernameTooLong)
        && users == old(users) && sellers == old(sellers)
        && nextUserId == old(nextUserId) && nextSellerId == old(nextSellerId)
      ensures ValidateRegistration(input, old(Usernames()), isEmail).Ok? &&
              |ValidateRegistration(input, old(Usernames()), isEmail).value.email| <= UsernameMax ==>
        var v := ValidateRegistration(input, old(Usernames()), isEmail).value;
        && r == Ok(old(nextSellerId))
        && users == old(users)[old(nextUserId) := NewUser(v)]
        && sellers == old(sellers)[old(nextSellerId) := RegisteredSeller(v, old(nextUserId))]
        && nextUserId == old(nextUserId) + 1 && nextSellerId == old(nextSellerId) + 1
    {
      var checked := ValidateRegistration(input, Usernames(), isEmail);
      if checked.Err? {
        return Err(checked.error);
      }
      r := Create(checked.value);
    }

    /**
     * Creating the records of a validated registration: a user whose username
     * and e-mail are the given e-mail, and a pending seller profile linked to
     * it with the descriptive fields; both keys are fresh. An e-mail longer
     * than the username column is refused by the database when the user is
     * inserted, before anything is stored.
     */
    method Create(v: Registration) returns (r: Result<SellerId, RegisterError>)
      requires Valid()
      requires v.email !in Usernames()
      requires |v.businessName| <= BusinessNameMax && |v.ownerName| <= OwnerNameMax
      requires |v.phoneNumber| <= PhoneNumberMax && |v.businessId| <= BusinessIdMax
      modifies this`users, this`sellers, this`nextUserId, this`nextSellerId
      ensures Valid()
      ensures |v.email| > UsernameMax ==>
        && r == Err(UsernameTooLong)
        && users == old(users) && sellers == old(sellers)
        && nextUserId == old(nextUserId) && nextSellerId == old(nextSellerId)
      ensures |v.email| <= UsernameMax ==>
        && old(nextUserId) !in old(users) && r == Ok(old(nextSellerId)) && old(nextSellerId) !in old(sellers)
        && users == old(users)[old(nextUserId) := NewUser(v)]
        && sellers == old(sellers)[old(nextSellerId) := RegisteredSeller(v, old(nextUserId))]
        && nextUserId == old(nextUserId) + 1 && nextSellerId == old(nextSellerId) + 1
    {
      if |v.email| > UsernameMax {
        return Err(UsernameTooLong);
      }
      var uid := SaveUser(NewUser(v));
      var sid := SaveSeller(RegisteredSeller(v, uid));
      r := Ok(sid);
    }

    /** Storing a new user, whose username no user has yet, at the next free key. */
    method SaveUser(u: User) returns (uid: UserId)
      requires Valid() && u.username !in Usernames() && UserFits(u)
      modifies this`users, this`nextUserId
      ensures Valid()
      ensures uid == old(nextUserId) && uid !in old(users)
      ensures users == old(users)[uid := u] && nextUserId == uid + 1
    {
      uid := nextUserId;
      users := users[uid := u];
      nextUserId := nextUserId + 1;
      AddUserKeepsIntegrity(old(Snapshot()), uid, u, Snapshot());
    }

    /** Storing a new seller profile, for an existing user without one, at the next free key. */
    method SaveSeller(s: Seller) returns (sid: SellerId)
      requires Valid() && s.user in users && SellerFits(s)
      requires forall x :: x in sellers ==> sellers[x].user != s.user
      modifies this`sellers, this`nextSellerId
      ensures Valid()
      ensures sid == old(nextSellerId) && sid !in old(sellers)
      ensures sellers == old(sellers)[sid := s] && nextSellerId == sid + 1
    {
      sid := nextSellerId;
      sellers := sellers[sid := s];
      nextSellerId := nextSellerId + 1;
      AddSellerKeepsIntegrity(old(Snapshot()), sid, s, Snapshot());
    }

    /** The approve endpoint: any signed-in user; the seller must exist; its flag becomes true. */
    method Approve(req: Requester, id: SellerId) returns (r: Result<Seller, Failure>)
      requires Valid()
      modifies this`sellers
      ensures Valid()
      ensures Denial(ApprovePermission, req, users).Some? ==>
        r == Err(Denial(ApprovePermission, req, users).value) && sellers == old(sellers)
      ensures Denial(ApprovePermission, req, users).None? && id !in old(sellers) ==>
        r == Err(NotFound) && sellers == old(sellers)
      ensures Denial(ApprovePermission, req, users).None? && id in old(sellers) ==>
        sellers == SetVerified(old(sellers), id, true) && r == Ok(sellers[id])
    {
      var denied := Denial(ApprovePermission, req, users);
      if denied.Some? {
        return Err(denied.value);
      }
      if id !in sellers {
        return Err(NotFound);
      }
      SaveVerified(id, true);
      r := Ok(sellers[id]);
    }

    /**
     * The admin verify endpoint: the staff flag; the seller must exist; the
     * action decides the flag, and an unknown action still succeeds.
     */
    method Verify(req: Requester, pk: SellerId, action: Option<string>) returns (r: Outcome)
      requires Valid()
      modifies this`sellers
      ensures Valid()
      ensures Denial(VerifyPermission, req, users).Some? ==>
        r == Refused(Denial(VerifyPermission, req, users).value) && sellers == old(sellers)
      ensures Denial(VerifyPermission, req, users).None? && pk !in old(sellers) ==>
        r == Refused(NotFound) && sellers == old(sellers)
      ensures Denial(VerifyPermission, req, users).None? && pk in old(sellers) ==>
        r == Done && sellers == SetVerified(old(sellers), pk, NextVerified(action, old(sellers)[pk].isVerified))
    {
      var denied := Denial(VerifyPermission, req, users);
      if denied.Some? {
        return Refused(denied.value);
      }
      if pk !in sellers {
        return Refused(NotFound);
      }
      SaveVerified(pk, NextVerified(action, sellers[pk].isVerified));
      r := Done;
    }

    /** Storing a seller's flag: the one profile changes, and only in that flag. */
    method SaveVerified(id: SellerId, v: bool)
      requires Valid() && id in sellers
      modifies this`sellers
      ensures Valid()
      ensures sellers == SetVerified(old(sellers), id, v)
    {
      sellers := SetVerified(sellers, id, v);
      SetVerifiedKeepsIntegrity(old(Snapshot()), id, v, Snapshot());
    }

    /**
     * The full update that the approve route inherits (PUT): any signed-in
     * user; the seller must exist; the form replaces the profile's fields,
     * the flags included when they are sent.
     */
    method UpdateSeller(req: Requester, id: SellerId, input: SellerInput) returns (r: Result<Seller, Failure>)
      requires Valid()
      modifies this`sellers
      ensures Valid()
      ensures Denial(ApprovePermission, req, users).Some? ==>
        r == Err(Denial(ApprovePermission, req, users).value) && sellers == old(sellers)
      ensures Denial(ApprovePermission, req, users).None? && id !in old(sellers) ==>
        r == Err(NotFound) && sellers == old(sellers)
      ensures Denial(ApprovePermission, req, users).None? && id in old(sellers) ==>
        var u := CleanSellerUpdate(input, id, users, old(sellers));
        && (u.Err? ==> r == Err(BadRequest) && sellers == old(sellers))
        && (u.Ok? ==> r == Ok(u.value) && sellers == old(sellers)[id := u.value])
    {
      var denied := Denial(ApprovePermission, req, users);
      if denied.Some? {
        return Err(denied.value);
      }
      if id !in sellers {
        return Err(NotFound);
      }
      var cleaned := CleanSellerUpdate(input, id, users, sellers);
      if cleaned.Err? {
        return Err(BadRequest);
      }
      SaveReplacedSeller(id, cleaned.value);
      r := Ok(cleaned.value);
    }

    /** Storing a replacement for seller `id`, linked to an existing user that no other profile has. */
    method SaveReplacedSeller(id: SellerId, s: Seller)
      requires Valid() && id in sellers && s.user in users && SellerFits(s)
      requires forall x :: x in sellers && x != id ==> sellers[x].user != s.user
      modifies this`sellers
      ensures Valid()
      ensures sellers == old(sellers)[id := s]
    {
      sellers := sellers[id := s];
      ReplaceSellerKeepsIntegrity(old(Snapshot()), id, s, Snapshot());
    }

    /** Storing a new product of an existing seller at the next free key. */
    method SaveProduct(p: Product) returns (pid: ProductId)
      requires Valid() && p.seller in sellers && ProductFits(p)
      modifies this`products, this`nextProductId
      ensures Valid()
      ensures pid == old(nextProductId) && pid !in old(products)
      ensures products == old(products)[pid := p] && nextProductId == pid + 1
    {
      pid := nextProductId;
      products := products[pid := p];
      nextProductId := nextProductId + 1;
      AddProductKeepsIntegrity(old(Snapshot()), pid, p, Snapshot());
    }

    /** Whether the requester is a signed-in user whose own seller profile is verified. */
    predicate MayUpload(req: Requester)
      reads this
      requires OneSellerPerUser(sellers)
      ensures MayUpload(req) <==>
        req.SignedIn? && exists s :: s in sellers && sellers[s].user == req.user && sellers[s].isVerified
    {
      && req.SignedIn?
      && SellerProfileOf(sellers, req.user).Some?
      && sellers[SellerProfileOf(sellers, req.user).value].isVerified
    }

    /**
     * Product upload: a signed-in user with a verified seller profile adds one
     * product owned by that profile; any other requester is refused (403) and
     * no product is created.
     */
    method UploadProduct(req: Requester, input: ProductInput) returns (r: Result<ProductId, Failure>)
      requires Valid()
      modifies this`products, this`nextProductId
      ensures Valid()
      ensures Denial(UploadPermission, req, users).Some? ==>
        r == Err(Denial(UploadPermission, req, users).value) && products == old(products)
      ensures req.SignedIn? && !MayUpload(req) ==> r == Err(Forbidden) && products == old(products)
      ensures MayUpload(req) && CleanProduct(input, SellerProfileOf(sellers, req.user).value).Err? ==>
        r == Err(BadRequest) && products == old(products)
      ensures r.Ok? ==>
        && MayUpload(req)
        && r.value == old(nextProductId) && r.value !in old(products)
        && products == old(products)[r.value := CleanProduct(input, SellerProfileOf(sellers, req.user).value).value]
        && products[r.value].seller == SellerProfileOf(sellers, req.user).value
      ensures MayUpload(req) && CleanProduct(input, SellerProfileOf(sellers, req.user).value).Ok? ==> r.Ok?
    {
      var denied := Denial(UploadPermission, req, users);
      if denied.Some? {
        return Err(denied.value);
      }
      var profile := SellerProfileOf(sellers, req.user);
      if profile.None? || !sellers[profile.value].isVerified {
        return Err(Forbidden);
      }
      var cleaned := CleanProduct(input, profile.value);
      if cleaned.Err? {
        return Err(BadRequest);
      }
      var pid := SaveProduct(cleaned.value);
      r := Ok(pid);
    }

    /** The pending list, for any signed-in user, with every field. */
    method PendingSellers(req: Requester) returns (r: Result<map<SellerId, Seller>, Failure>)
      requires Valid()
      ensures Denial(PendingPermission, req, users).Some? ==> r == Err(Denial(PendingPermission, req, users).value)
      ensures Denial(PendingPermission, req, users).None? ==> r == Ok(Pending(sellers))
    {
      var denied := Denial(PendingPermission, req, users);
      if denied.Some? {
        return Err(denied.value);
      }
      r := Ok(Pending(sellers));
    }

    /** The verified list, open to everyone, in the public representation. */
    method VerifiedSellers() returns (r: map<SellerId, PublicSeller>)
      requires Valid()
      ensures r == PublicListing(sellers, users)
    {
      r := PublicListing(sellers, users);
    }

    /** The second verified list, with no permission at all; it returns the same listing. */
    method PublicVerifiedSellers() returns (r: map<SellerId, PublicSeller>)
      requires Valid()
      ensures r.Keys == Verified(sellers).Keys
      ensures forall s :: s in r ==> r[s] == PublicView(sellers[s], users)
    {
      r := PublicListing(sellers, users);
    }

    /** The sellers not yet notified, for any signed-in user. */
    method UnnotifiedSellers(req: Requester) returns (r: Result<map<SellerId, Seller>, Failure>)
      requires Valid()
      ensures Denial(NotificationsPermission, req, users).Some? ==> r == Err(Denial(NotificationsPermission, req, users).value)
      ensures Denial(NotificationsPermission, req, users).None? ==> r == Ok(Unnotified(sellers))
    {
      var denied := Denial(NotificationsPermission, req, users);
      if denied.Some? {
        return Err(denied.value);
      }
      r := Ok(Unnotified(sellers));
    }

    /** Every seller with every field, for staff users only. */
    method AllSellers(req: Requester) returns (r: Result<map<SellerId, Seller>, Failure>)
      requires Valid()
      ensures r.Ok? <==> IsStaff(users, req)
      ensures r.Ok? ==> r.value == sellers
      ensures r.Err? ==> r == Err(Denial(AdminListPermission, req, users).value)
    {
      var denied := Denial(AdminListPermission, req, users);
      if denied.Some? {
        return Err(denied.value);
      }
      r := Ok(sellers);
    }

    /** The seller detail by business name, open to everyone, with every field of the seller. */
    method SellerByBusiness(name: string) returns (r: Result<Seller, Failure>)
      requires Valid()
      ensures r.Ok? <==> LookupByBusiness(sellers, name).Ok?
      ensures r.Ok? ==> r.value == sellers[LookupByBusiness(sellers, name).value]
      ensures r.Err? ==> r.error == LookupByBusiness(sellers, name).error
    {
      var found := LookupByBusiness(sellers, name);
      if found.Err? {
        return Err(found.error);
      }
      r := Ok(sellers[found.value]);
    }

    /** The seller login endpoint: the login checks, then the seller's own profile. */
    method SellerLoginView(email: Option<string>, password: Option<string>,
                           isEmail: string -> bool, authenticate: (string, string) -> bool)
      returns (r: Result<Seller, LoginError>)
      requires Valid()
      ensures r.Ok? <==> SellerLogin(users, sellers, email, password, isEmail, authenticate).Ok?
      ensures r.Ok? ==> r.value == sellers[SellerLogin(users, sellers, email, password, isEmail, authenticate).value.1]
      ensures r.Err? ==> r.error == SellerLogin(users, sellers, email, password, isEmail, authenticate).error
    {
      var login := SellerLogin(users, sellers, email, password, isEmail, authenticate);
      if login.Err? {
        return Err(login.error);
      }
      r := Ok(sellers[login.value.1]);
    }

    /** The admin login endpoint in force: the user's key and username once the admin checks pass. */
    method AdminLoginView(username: Option<string>, password: Option<string>, authenticate: (string, string) -> bool)
      returns (r: Result<(UserId, string), LoginError>)
      requires Valid()
      ensures r.Ok? <==> AdminLogin(users, admins, username, password, authenticate).Ok?
      ensures r.Ok? ==>
        && r.value.0 == AdminLogin(users, admins, username, password, authenticate).value
        && r.value.0 in users && r.value.1 == users[r.value.0].username
        && HasAdminProfile(admins, r.value.0)
      ensures r.Err? ==> r.error == AdminLogin(users, admins, username, password, authenticate).error
    {
      var login := AdminLogin(users, admins, username, password, authenticate);
      if login.Err? {
        return Err(login.error);
      }
      r := Ok((login.value, users[login.value].username));
    }
  }
}
