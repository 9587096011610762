/**
 * The records of the marketplace (mediater/models.py): seller, product, buyer,
 * review and admin profiles, the identity record they hang off, the column
 * bounds and defaults the database enforces, the `__str__` fallbacks, and what
 * the foreign keys' `on_delete` rules do when a row is deleted.
 */
module Models {
  import opened Wrappers

  // Primary keys, as the database's auto-increment columns hand them out.
  type UserId = nat
  type SellerId = nat
  type ProductId = nat
  type BuyerId = nat
  type ReviewId = nat
  type AdminId = nat

  /**
   * The framework's identity record. `password` is the credential given when
   * the user was created; how it is hashed and checked is not modelled.
   */
  datatype User = User(username: string, email: string, password: string, isStaff: bool)

  // Column lengths of the framework's user record: a varchar(150) username and
  // a varchar(254) e-mail.
  const UsernameMax: nat := 150
  const EmailMax: nat := 254

  // Column lengths of SellerProfile, Product, BuyerProfile, Review and AdminProfile.
  const BusinessNameMax: nat := 255
  const OwnerNameMax: nat := 255
  const PhoneNumberMax: nat := 20
  const BusinessIdMax: nat := 100
  const ProductNameMax: nat := 255
  const ImageNameMax: nat := 100  // an ImageField's default max_length
  const FullNameMax: nat := 255
  const BuyerPhoneNumberMax: nat := 32
  const BuyerNameMax: nat := 255

  /** A seller profile: one per user, pending until an administrator verifies it. */
  datatype Seller = Seller(
    user: UserId,
    businessName: string,
    ownerName: string,
    phoneNumber: string,
    businessId: string,
    address: string,
    isVerified: bool,
    notified: bool)

  /** A freshly created seller profile: both flags take their column defaults. */
  function NewSeller(user: UserId, businessName: string, ownerName: string, phoneNumber: string,
                     businessId: string, address: string): (s: Seller)
    ensures !s.isVerified && !s.notified
    ensures s.user == user && s.businessName == businessName && s.ownerName == ownerName
    ensures s.phoneNumber == phoneNumber && s.businessId == businessId && s.address == address
  {
    Seller(user, businessName, ownerName, phoneNumber, businessId, address, false, false)
  }

  /**
   * A price is a decimal with at most 10 digits, 2 of them after the point;
   * the model keeps it as a whole number of hundredths.
   */
  const PriceMaxDigits: nat := 10
  const PriceDecimalPlaces: nat := 2

  function Pow10(n: nat): (r: nat)
    ensures r >= 1
  {
    if n == 0 then 1 else 10 * Pow10(n - 1)
  }

  const MaxPriceCents: nat := Pow10(PriceMaxDigits) - 1

  predicate PriceFits(cents: int)
  {
    -(MaxPriceCents as int) <= cents <= MaxPriceCents
  }

  /** The largest price is 99999999.99: eight digits before the point, two after. */
  lemma LargestPrice()
    ensures MaxPriceCents == 9_999_999_999
    ensures PriceFits(9_999_999_999) && !PriceFits(10_000_000_000) && !PriceFits(-10_000_000_000)
    ensures MaxPriceCents / Pow10(PriceDecimalPlaces) == Pow10(PriceMaxDigits - PriceDecimalPlaces) - 1
  {
    assert Pow10(2) == 100;
    assert Pow10(8) == 100_000_000;
    assert Pow10(10) == 10_000_000_000;
  }

  /** A product; the image is kept as the name of its stored file. */
  datatype Product = Product(seller: SellerId, name: string, priceCents: int, description: string, image: string)

  datatype Buyer = Buyer(
    user: Option<UserId>,
    fullName: Option<string>,
    email: string,
    phoneNumber: Option<string>,
    address: Option<string>)

  // A rating is a positive small integer: the column admits 0 to 32767.
  const RatingMax: nat := 32767
  const DefaultRating: nat := 5

  datatype Review = Review(
    seller: SellerId,
    buyer: Option<BuyerId>,
    buyerEmail: Option<string>,
    buyerName: Option<string>,
    rating: nat,
    comment: string,
    adminReply: Option<string>)

  /** The rating a new review stores: the default when none is given, otherwise the given one if the column admits it. */
  function ReviewRating(given: Option<int>): (r: Option<nat>)
    ensures given.None? ==> r == Some(DefaultRating)
    ensures given.Some? ==> (r.Some? <==> 0 <= given.value <= RatingMax)
    ensures r.Some? ==> r.value <= RatingMax
    ensures r.Some? && given.Some? ==> r.value == given.value
  {
    match given
    case None => Some(DefaultRating)
    case Some(v) => if 0 <= v <= RatingMax then Some(v) else None
  }

  datatype AdminProfile = AdminProfile(user: UserId, fullName: string)

  /** Python's truth value of an optional string: absent and empty are both false. */
  predicate Present(s: Option<string>)
  {
    s.Some? && s.value != ""
  }

  /** The text Python's f-string gives for an optional value: `None` when absent. */
  function Shown(s: Option<string>): string
  {
    if s.Some? then s.value else "None"
  }

  /** `str(buyer)`: the full name when there is a non-empty one, the email otherwise. */
  function BuyerDisplay(b: Buyer): (r: string)
    ensures Present(b.fullName) ==> r == b.fullName.value
    ensures !Present(b.fullName) ==> r == b.email
    ensures b.email != "" ==> r != ""
  {
    if Present(b.fullName) then b.fullName.value else b.email
  }

  /**
   * `str(review)`: who wrote it (the buyer name when non-empty, otherwise the
   * buyer email, shown as `None` when absent) and the seller's business name.
   */
  function ReviewDisplay(r: Review, seller: Seller): (d: string)
    ensures Present(r.buyerName) ==> d == "Review by " + r.buyerName.value + " for " + seller.businessName
    ensures !Present(r.buyerName) ==> d == "Review by " + Shown(r.buyerEmail) + " for " + seller.businessName
  {
    var who := if Present(r.buyerName) then r.buyerName.value else Shown(r.buyerEmail);
    "Review by " + who + " for " + seller.businessName
  }

  /** The database: one table per model. */
  datatype Tables = Tables(
    users: map<UserId, User>,
    sellers: map<SellerId, Seller>,
    products: map<ProductId, Product>,
    buyers: map<BuyerId, Buyer>,
    reviews: map<ReviewId, Review>,
    admins: map<AdminId, AdminProfile>)

  /** Usernames are unique among users. */
  predicate UsernamesUnique(users: map<UserId, User>)
  {
    forall a, b :: a in users && b in users && users[a].username == users[b].username ==> a == b
  }

  /** Each user has at most one seller profile (the one-to-one link). */
  predicate OneSellerPerUser(sellers: map<SellerId, Seller>)
  {
    forall a, b :: a in sellers && b in sellers && sellers[a].user == sellers[b].user ==> a == b
  }

  /** Each user has at most one admin profile. */
  predicate OneAdminPerUser(admins: map<AdminId, AdminProfile>)
  {
    forall a, b :: a in admins && b in admins && admins[a].user == admins[b].user ==> a == b
  }

  /** Each user has at most one buyer profile; a buyer may have no user. */
  predicate OneBuyerPerUser(buyers: map<BuyerId, Buyer>)
  {
    forall a, b :: a in buyers && b in buyers && buyers[a].user.Some? && buyers[a].user == buyers[b].user ==> a == b
  }

  /** Buyer emails are unique. */
  predicate BuyerEmailsUnique(buyers: map<BuyerId, Buyer>)
  {
    forall a, b :: a in buyers && b in buyers && buyers[a].email == buyers[b].email ==> a == b
  }

  /** The column bounds of each kind of row: string lengths, the price's digits, the rating's range. */
  predicate UserFits(u: User)
  {
    |u.username| <= UsernameMax && |u.email| <= EmailMax
  }

  predicate SellerFits(s: Seller)
  {
    && |s.businessName| <= BusinessNameMax && |s.ownerName| <= OwnerNameMax
    && |s.phoneNumber| <= PhoneNumberMax && |s.businessId| <= BusinessIdMax
  }

  predicate ProductFits(p: Product)
  {
    |p.name| <= ProductNameMax && PriceFits(p.priceCents) && |p.image| <= ImageNameMax
  }

  predicate BuyerFits(b: Buyer)
  {
    && (b.fullName.Some? ==> |b.fullName.value| <= FullNameMax)
    && |b.email| <= EmailMax
    && (b.phoneNumber.Some? ==> |b.phoneNumber.value| <= BuyerPhoneNumberMax)
  }

  predicate ReviewFits(r: Review)
  {
    && (r.buyerEmail.Some? ==> |r.buyerEmail.value| <= EmailMax)
    && (r.buyerName.Some? ==> |r.buyerName.value| <= BuyerNameMax)
    && r.rating <= RatingMax
  }

  predicate AdminFits(a: AdminProfile)
  {
    |a.fullName| <= FullNameMax
  }

  /*
   * What the schema guarantees of each table, given the tables its foreign
   * keys point into: unique columns, links that resolve, rows that fit.
   */

  predicate UsersOk(users: map<UserId, User>)
  {
    UsernamesUnique(users) && forall u :: u in users ==> UserFits(users[u])
  }

  predicate SellersOk(sellers: map<SellerId, Seller>, users: map<UserId, User>)
  {
    && OneSellerPerUser(sellers)
    && forall s :: s in sellers ==> sellers[s].user in users && SellerFits(sellers[s])
  }

  predicate ProductsOk(products: map<ProductId, Product>, sellers: map<SellerId, Seller>)
  {
    forall p :: p in products ==> products[p].seller in sellers && ProductFits(products[p])
  }

  predicate BuyersOk(buyers: map<BuyerId, Buyer>, users: map<UserId, User>)
  {
    && OneBuyerPerUser(buyers) && BuyerEmailsUnique(buyers)
    && forall b :: b in buyers ==>
         (buyers[b].user.Some? ==> buyers[b].user.value in users) && BuyerFits(buyers[b])
  }

  predicate ReviewsOk(reviews: map<ReviewId, Review>, sellers: map<SellerId, Seller>, buyers: map<BuyerId, Buyer>)
  {
    forall v :: v in reviews ==>
      && reviews[v].seller in sellers
      && (reviews[v].buyer.Some? ==> reviews[v].buyer.value in buyers)
      && ReviewFits(reviews[v])
  }

  predicate AdminsOk(admins: map<AdminId, AdminProfile>, users: map<UserId, User>)
  {
    && OneAdminPerUser(admins)
    && forall a :: a in admins ==> admins[a].user in users && AdminFits(admins[a])
  }

  /** Everything the schema guarantees of a database state. */
  predicate Integrity(t: Tables)
  {
    && UsersOk(t.users)
    && SellersOk(t.sellers, t.users)
    && ProductsOk(t.products, t.sellers)
    && BuyersOk(t.buyers, t.users)
    && ReviewsOk(t.reviews, t.sellers, t.buyers)
    && AdminsOk(t.admins, t.users)
  }

  /** Under the schema, every product and every review leads through its seller profile to an existing user. */
  lemma OwnersExist(t: Tables)
    requires Integrity(t)
    ensures forall p :: p in t.products ==>
      t.products[p].seller in t.sellers && t.sellers[t.products[p].seller].user in t.users
    ensures forall v :: v in t.reviews ==>
      t.reviews[v].seller in t.sellers && t.sellers[t.reviews[v].seller].user in t.users
  {
  }

  /**
   * Deleting seller profiles: their products and the reviews about them go
   * with them (CASCADE); nothing else changes.
   */
  function DeleteSellers(t: Tables, gone: set<SellerId>): (r: Tables)
    ensures r.sellers.Keys == t.sellers.Keys - gone
    ensures forall p :: p in r.products <==> p in t.products && t.products[p].seller !in gone
    ensures forall v :: v in r.reviews <==> v in t.reviews && t.reviews[v].seller !in gone
    ensures forall s :: s in r.sellers ==> r.sellers[s] == t.sellers[s]
    ensures forall p :: p in r.products ==> r.products[p] == t.products[p]
    ensures forall v :: v in r.reviews ==> r.reviews[v] == t.reviews[v]
    ensures r.users == t.users && r.buyers == t.buyers && r.admins == t.admins
  {
    t.(sellers := t.sellers - gone,
       products := map p | p in t.products && t.products[p].seller !in gone :: t.products[p],
       reviews := map v | v in t.reviews && t.reviews[v].seller !in gone :: t.reviews[v])
  }

  /** Deleting one seller removes exactly it, its products and the reviews about it. */
  function DeleteSeller(t: Tables, sid: SellerId): (r: Tables)
    ensures r.sellers.Keys == t.sellers.Keys - {sid}
    ensures forall p :: p in r.products <==> p in t.products && t.products[p].seller != sid
    ensures forall v :: v in r.reviews <==> v in t.reviews && t.reviews[v].seller != sid
    ensures forall s :: s in r.sellers ==> r.sellers[s] == t.sellers[s]
    ensures forall p :: p in r.products ==> r.products[p] == t.products[p]
    ensures forall v :: v in r.reviews ==> r.reviews[v] == t.reviews[v]
    ensures r.users == t.users && r.buyers == t.buyers && r.admins == t.admins
  {
    DeleteSellers(t, {sid})
  }

  /**
   * Deleting buyer profiles: their reviews stay, with the buyer link cleared
   * (SET_NULL); nothing else changes.
   */
  function DeleteBuyers(t: Tables, gone: set<BuyerId>): (r: Tables)
    ensures r.buyers.Keys == t.buyers.Keys - gone
    ensures forall b :: b in r.buyers ==> r.buyers[b] == t.buyers[b]
    ensures r.reviews.Keys == t.reviews.Keys
    ensures forall v :: v in t.reviews ==>
      r.reviews[v] == if t.reviews[v].buyer.Some? && t.reviews[v].buyer.value in gone
                      then t.reviews[v].(buyer := None) else t.reviews[v]
    ensures r.users == t.users && r.sellers == t.sellers && r.products == t.products && r.admins == t.admins
  {
    t.(buyers := t.buyers - gone,
       reviews := map v | v in t.reviews ::
         if t.reviews[v].buyer.Some? && t.reviews[v].buyer.value in gone
         then t.reviews[v].(buyer := None) else t.reviews[v])
  }

  /** Deleting one buyer keeps every review, clearing the link only on that buyer's own reviews. */
  function DeleteBuyer(t: Tables, bid: BuyerId): (r: Tables)
    ensures r.buyers.Keys == t.buyers.Keys - {bid}
    ensures forall b :: b in r.buyers ==> r.buyers[b] == t.buyers[b]
    ensures r.reviews.Keys == t.reviews.Keys
    ensures forall v :: v in t.reviews ==>
      r.reviews[v].buyer == (if t.reviews[v].buyer == Some(bid) then None else t.reviews[v].buyer)
    ensures forall v :: v in t.reviews ==> r.reviews[v].(buyer := t.reviews[v].buyer) == t.reviews[v]
    ensures r.users == t.users && r.sellers == t.sellers && r.products == t.products && r.admins == t.admins
  {
    DeleteBuyers(t, {bid})
  }

  /** Whether `sid` is a seller profile of user `uid`. */
  predicate SellerOfUser(t: Tables, sid: SellerId, uid: UserId)
  {
    sid in t.sellers && t.sellers[sid].user == uid
  }

  /** Whether the buyer link `b` points at a buyer profile of user `uid`. */
  predicate BuyerOfUser(t: Tables, b: Option<BuyerId>, uid: UserId)
  {
    b.Some? && b.value in t.buyers && t.buyers[b.value].user == Some(uid)
  }

  /**
   * Deleting a user: its seller, buyer and admin profiles are deleted with it
   * (each link is CASCADE), and those deletions cascade in turn.
   */
  function DeleteUser(t: Tables, uid: UserId): (r: Tables)
    ensures uid !in r.users
    ensures forall s :: s in r.sellers ==> r.sellers[s].user != uid
    ensures forall a :: a in r.admins ==> r.admins[a].user != uid
    ensures forall b :: b in r.buyers ==> r.buyers[b].user != Some(uid)
    // what survives: every other row, unchanged except for cleared buyer links
    ensures r.users.Keys == t.users.Keys - {uid}
    ensures forall u :: u in r.users ==> r.users[u] == t.users[u]
    ensures forall s :: s in r.sellers <==> s in t.sellers && t.sellers[s].user != uid
    ensures forall s :: s in r.sellers ==> r.sellers[s] == t.sellers[s]
    ensures forall b :: b in r.buyers <==> b in t.buyers && t.buyers[b].user != Some(uid)
    ensures forall b :: b in r.buyers ==> r.buyers[b] == t.buyers[b]
    ensures forall a :: a in r.admins <==> a in t.admins && t.admins[a].user != uid
    ensures forall a :: a in r.admins ==> r.admins[a] == t.admins[a]
    ensures forall p :: p in r.products <==> p in t.products && !SellerOfUser(t, t.products[p].seller, uid)
    ensures forall p :: p in r.products ==> r.products[p] == t.products[p]
    ensures forall v :: v in r.reviews <==> v in t.reviews && !SellerOfUser(t, t.reviews[v].seller, uid)
    ensures forall v :: v in r.reviews ==>
      r.reviews[v] == if BuyerOfUser(t, t.reviews[v].buyer, uid) then t.reviews[v].(buyer := None) else t.reviews[v]
  {
    var sellersOf := set s | s in t.sellers && t.sellers[s].user == uid;
    var buyersOf := set b | b in t.buyers && t.buyers[b].user == Some(uid);
    DropUser(DeleteBuyers(DeleteSellers(t, sellersOf), buyersOf), uid)
  }

  /** Deleting sellers keeps the schema's guarantees: no product or review is left pointing at them. */
  lemma DeleteSellersKeepsIntegrity(t: Tables, gone: set<SellerId>)
    requires Integrity(t)
    ensures Integrity(DeleteSellers(t, gone))
  {
  }

  /** Deleting buyers keeps the schema's guarantees: every review survives, none points at a deleted buyer. */
  lemma DeleteBuyersKeepsIntegrity(t: Tables, gone: set<BuyerId>)
    requires Integrity(t)
    ensures Integrity(DeleteBuyers(t, gone))
  {
    var r := DeleteBuyers(t, gone);
    assert BuyersOk(r.buyers, r.users) by {
      assert OneBuyerPerUser(r.buyers) && BuyerEmailsUnique(r.buyers);
    }
    assert ReviewsOk(r.reviews, r.sellers, r.buyers) by {
      forall v | v in r.reviews
        ensures r.reviews[v].seller in r.sellers && ReviewFits(r.reviews[v])
        ensures r.reviews[v].buyer.Some? ==> r.reviews[v].buyer.value in r.buyers
      {
        assert ReviewFits(t.reviews[v]);
      }
    }
  }

  /** Removing a user to which no seller or buyer profile refers any more, with its admin profiles. */
  function DropUser(t: Tables, uid: UserId): (r: Tables)
  {
    t.(users := t.users - {uid},
       admins := map a | a in t.admins && t.admins[a].user != uid :: t.admins[a])
  }

  lemma DropUserKeepsIntegrity(t: Tables, uid: UserId)
    requires Integrity(t)
    requires forall s :: s in t.sellers ==> t.sellers[s].user != uid
    requires forall b :: b in t.buyers ==> t.buyers[b].user != Some(uid)
    ensures Integrity(DropUser(t, uid))
  {
    var r := DropUser(t, uid);
    assert SellersOk(r.sellers, r.users) && BuyersOk(r.buyers, r.users);
    assert AdminsOk(r.admins, r.users);
  }

  /** Deleting a user leaves a database that still meets the schema. */
  lemma DeleteUserKeepsIntegrity(t: Tables, uid: UserId)
    requires Integrity(t)
    ensures Integrity(DeleteUser(t, uid))
  {
    var sellersOf := set s | s in t.sellers && t.sellers[s].user == uid;
    var buyersOf := set b | b in t.buyers && t.buyers[b].user == Some(uid);
    var t1 := DeleteSellers(t, sellersOf);
    DeleteSellersKeepsIntegrity(t, sellersOf);
    var t2 := DeleteBuyers(t1, buyersOf);
    DeleteBuyersKeepsIntegrity(t1, buyersOf);
    assert forall s :: s in t2.sellers ==> t2.sellers[s].user != uid;
    assert forall b :: b in t2.buyers ==> t2.buyers[b].user != Some(uid);
    DropUserKeepsIntegrity(t2, uid);
    var r := DropUser(t2, uid);
    assert Integrity(r);
    assert DeleteUser(t, uid) == r;
  }
}
