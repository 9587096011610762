/**
 * The request validation and record creation of mediater/serializers.py:
 * seller registration, seller and admin login, the public seller
 * representation and the product form whose owner the client cannot set.
 *
 * Every character field of a form strips the whitespace around its value
 * before checking it, refuses a missing or blank value, and checks its length
 * bounds on the stripped value; what is stored is the stripped value.
 * Password checking and e-mail syntax are the framework's and enter the model
 * as predicates passed in (`authenticate`, `isEmail`).
 */
module Serializers {
  import opened Wrappers
  import opened Models
  import Text

  /** Why one field of a form was refused. */
  datatype FieldError = Required | Blank | TooShort | TooLong | NullCharacter | NotAnEmail

  /**
   * A character field with a minimum and an optional maximum length; its
   * validators, in their order, are the maximum, the minimum and the refusal
   * of the NUL character.
   */
  function CleanChar(raw: Option<string>, minLength: nat, maxLength: Option<nat>): (r: Result<string, FieldError>)
    ensures raw.None? ==> r == Err(Required)
    ensures raw.Some? && Text.AllSpace(raw.value) ==> r == Err(Blank)
    ensures raw.Some? && !Text.AllSpace(raw.value) && maxLength.Some? && |Text.Trim(raw.value)| > maxLength.value ==>
      r == Err(TooLong)
    ensures
      && raw.Some? && !Text.AllSpace(raw.value)
      && (maxLength.Some? ==> |Text.Trim(raw.value)| <= maxLength.value)
      && |Text.Trim(raw.value)| < minLength
      ==> r == Err(TooShort)
    ensures
      && raw.Some? && !Text.AllSpace(raw.value)
      && (maxLength.Some? ==> |Text.Trim(raw.value)| <= maxLength.value)
      && minLength <= |Text.Trim(raw.value)| && '\0' in Text.Trim(raw.value)
      ==> r == Err(NullCharacter)
    ensures r.Ok? <==>
      && raw.Some?
      && !Text.AllSpace(raw.value)
      && minLength <= |Text.Trim(raw.value)|
      && (maxLength.Some? ==> |Text.Trim(raw.value)| <= maxLength.value)
      && '\0' !in Text.Trim(raw.value)
    ensures r.Ok? ==> r.value == Text.Trim(raw.value) && r.value != []
  {
    match raw
    case None => Err(Required)
    case Some(s) =>
      var v := Text.Trim(s);
      if v == [] then Err(Blank)
      else if maxLength.Some? && |v| > maxLength.value then Err(TooLong)
      else if |v| < minLength then Err(TooShort)
      else if '\0' in v then Err(NullCharacter)
      else Ok(v)
  }

  /** A value with a NUL character in it is refused, wherever it sits. */
  lemma NullCharacterRefused(before: string, after: string, minLength: nat, maxLength: Option<nat>)
    ensures CleanChar(Some(before + "\0" + after), minLength, maxLength).Err?
  {
    var s := before + "\0" + after;
    assert s[|before|] == '\0';
    if Text.AllSpace(s) {
      assert Text.IsSpace(s[|before|]);
    } else {
      Text.TrimKeepsNonSpace(s, |before|);
    }
  }

  /** An e-mail field: a character field whose stripped value must also pass the e-mail syntax check. */
  function CleanEmail(raw: Option<string>, isEmail: string -> bool): (r: Result<string, FieldError>)
    ensures r.Ok? <==> CleanChar(raw, 0, None).Ok? && isEmail(CleanChar(raw, 0, None).value)
    ensures r.Ok? ==> r.value == Text.Trim(raw.value) && r.value != [] && isEmail(r.value)
    ensures CleanChar(raw, 0, None).Err? ==> r == CleanChar(raw, 0, None)
    ensures CleanChar(raw, 0, None).Ok? && !isEmail(CleanChar(raw, 0, None).value) ==> r == Err(NotAnEmail)
  {
    var c := CleanChar(raw, 0, None);
    if c.Err? then c else if isEmail(c.value) then c else Err(NotAnEmail)
  }

  // ---------------------------------------------------------------- registration

  const PasswordMinLength: nat := 6

  /** The registration form as the client sent it; `isVerified` is read-only and never read. */
  datatype RegisterInput = RegisterInput(
    businessName: Option<string>,
    ownerName: Option<string>,
    phoneNumber: Option<string>,
    businessId: Option<string>,
    address: Option<string>,
    email: Option<string>,
    password: Option<string>,
    confirmPassword: Option<string>,
    isVerified: Option<bool>)

  datatype RegisterField =
    | BusinessNameField | OwnerNameField | PhoneNumberField | BusinessIdField
    | AddressField | EmailField | PasswordField | ConfirmPasswordField

  /** The validated registration data. */
  datatype Registration = Registration(
    businessName: string,
    ownerName: string,
    phoneNumber: string,
    businessId: string,
    address: string,
    email: string,
    password: string,
    confirmPassword: string)

  datatype RegisterError =
    | InvalidFields(errors: map<RegisterField, FieldError>)
    | PasswordMismatch
    | EmailInUse
    | UsernameTooLong  // the database refuses the username column's value; the request ends in a 500

  /** One field of the registration form, cleaned as that field cleans it. */
  function RegisterCheck(input: RegisterInput, isEmail: string -> bool, f: RegisterField): Result<string, FieldError>
  {
    match f
    case BusinessNameField => CleanChar(input.businessName, 0, Some(BusinessNameMax))
    case OwnerNameField => CleanChar(input.ownerName, 0, Some(OwnerNameMax))
    case PhoneNumberField => CleanChar(input.phoneNumber, 0, Some(PhoneNumberMax))
    case BusinessIdField => CleanChar(input.businessId, 0, Some(BusinessIdMax))
    case AddressField => CleanChar(input.address, 0, None)
    case EmailField => CleanEmail(input.email, isEmail)
    case PasswordField => CleanChar(input.password, PasswordMinLength, None)
    case ConfirmPasswordField => CleanChar(input.confirmPassword, 0, None)
  }

  const RegisterFields: set<RegisterField> :=
    {BusinessNameField, OwnerNameField, PhoneNumberField, BusinessIdField,
     AddressField, EmailField, PasswordField, ConfirmPasswordField}

  lemma RegisterFieldsComplete()
    ensures forall f: RegisterField :: f in RegisterFields
  {
    forall f: RegisterField ensures f in RegisterFields {
      match f
      case BusinessNameField =>
      case OwnerNameField =>
      case PhoneNumberField =>
      case BusinessIdField =>
      case AddressField =>
      case EmailField =>
      case PasswordField =>
      case ConfirmPasswordField =>
    }
  }

  /** The map from each field that fails to clean to its error. */
  function RegisterFieldErrors(input: RegisterInput, isEmail: string -> bool): (errors: map<RegisterField, FieldError>)
    ensures forall f :: f in errors <==> RegisterCheck(input, isEmail, f).Err?
    ensures forall f :: f in errors ==> errors[f] == RegisterCheck(input, isEmail, f).error
  {
    RegisterFieldsComplete();
    map f | f in RegisterFields && RegisterCheck(input, isEmail, f).Err? :: RegisterCheck(input, isEmail, f).error
  }

  /**
   * Field-by-field validation: either every field is clean, or the map of
   * every field that is not, with its error.
   */
  function CleanRegistration(input: RegisterInput, isEmail: string -> bool): (r: Result<Registration, map<RegisterField, FieldError>>)
    ensures r.Err? ==> r.error != map[] && r.error == RegisterFieldErrors(input, isEmail)
    ensures r.Ok? <==> forall f :: RegisterCheck(input, isEmail, f).Ok?
    ensures r.Ok? ==>
      && input.businessName.Some? && input.ownerName.Some? && input.phoneNumber.Some? && input.businessId.Some?
      && input.address.Some? && input.email.Some? && input.password.Some? && input.confirmPassword.Some?
    ensures r.Ok? ==>
      && r.value.businessName == Text.Trim(input.businessName.value) && |r.value.businessName| <= BusinessNameMax
      && r.value.ownerName == Text.Trim(input.ownerName.value) && |r.value.ownerName| <= OwnerNameMax
      && r.value.phoneNumber == Text.Trim(input.phoneNumber.value) && |r.value.phoneNumber| <= PhoneNumberMax
      && r.value.businessId == Text.Trim(input.businessId.value) && |r.value.businessId| <= BusinessIdMax
      && r.value.address == Text.Trim(input.address.value)
      && r.value.email == Text.Trim(input.email.value) && isEmail(r.value.email)
      && r.value.password == Text.Trim(input.password.value) && |r.value.password| >= PasswordMinLength
      && r.value.confirmPassword == Text.Trim(input.confirmPassword.value)
  {
    var errors := RegisterFieldErrors(input, isEmail);
    if errors != map[] then
      Err(errors)
    else
      RegisterFieldsClean(input, isEmail);
      Ok(Registration(
        Text.Trim(input.businessName.value), Text.Trim(input.ownerName.value),
        Text.Trim(input.phoneNumber.value), Text.Trim(input.businessId.value),
        Text.Trim(input.address.value), Text.Trim(input.email.value),
        Text.Trim(input.password.value), Text.Trim(input.confirmPassword.value)))
  }

  /** With no field error, every field is present and its stripped value meets its field's bounds. */
  lemma RegisterFieldsClean(input: RegisterInput, isEmail: string -> bool)
    requires RegisterFieldErrors(input, isEmail) == map[]
    ensures forall f :: RegisterCheck(input, isEmail, f).Ok?
    ensures CleanChar(input.businessName, 0, Some(BusinessNameMax)).Ok?
    ensures CleanChar(input.ownerName, 0, Some(OwnerNameMax)).Ok?
    ensures CleanChar(input.phoneNumber, 0, Some(PhoneNumberMax)).Ok?
    ensures CleanChar(input.businessId, 0, Some(BusinessIdMax)).Ok?
    ensures CleanChar(input.address, 0, None).Ok?
    ensures CleanEmail(input.email, isEmail).Ok?
    ensures CleanChar(input.password, PasswordMinLength, None).Ok?
    ensures CleanChar(input.confirmPassword, 0, None).Ok?
  {
    var errors := RegisterFieldErrors(input, isEmail);
    forall f ensures RegisterCheck(input, isEmail, f).Ok? {
      assert f !in errors;
    }
    assert RegisterCheck(input, isEmail, BusinessNameField).Ok?;
    assert RegisterCheck(input, isEmail, OwnerNameField).Ok?;
    assert RegisterCheck(input, isEmail, PhoneNumberField).Ok?;
    assert RegisterCheck(input, isEmail, BusinessIdField).Ok?;
    assert RegisterCheck(input, isEmail, AddressField).Ok?;
    assert RegisterCheck(input, isEmail, EmailField).Ok?;
    assert RegisterCheck(input, isEmail, PasswordField).Ok?;
    assert RegisterCheck(input, isEmail, ConfirmPasswordField).Ok?;
  }

  /**
   * The whole of registration validation: the fields first; then the two
   * passwords must agree; only then is an e-mail already taken as a username
   * refused.
   */
  function ValidateRegistration(input: RegisterInput, usernames: set<string>, isEmail: string -> bool): (r: Result<Registration, RegisterError>)
    ensures CleanRegistration(input, isEmail).Err? ==> r == Err(InvalidFields(CleanRegistration(input, isEmail).error))
    ensures r == Err(PasswordMismatch) <==>
      CleanRegistration(input, isEmail).Ok? && CleanRegistration(input, isEmail).value.password != CleanRegistration(input, isEmail).value.confirmPassword
    ensures r == Err(EmailInUse) <==>
      && CleanRegistration(input, isEmail).Ok?
      && CleanRegistration(input, isEmail).value.password == CleanRegistration(input, isEmail).value.confirmPassword
      && CleanRegistration(input, isEmail).value.email in usernames
    ensures r.Ok? <==>
      && CleanRegistration(input, isEmail).Ok?
      && CleanRegistration(input, isEmail).value.password == CleanRegistration(input, isEmail).value.confirmPassword
      && CleanRegistration(input, isEmail).value.email !in usernames
    ensures r.Ok? ==> CleanRegistration(input, isEmail) == Ok(r.value)
    ensures r.Ok? ==> r.value.password == r.value.confirmPassword && r.value.email !in usernames
    ensures r.Err? ==> !r.error.UsernameTooLong?
  {
    match CleanRegistration(input, isEmail)
    case Err(errors) => Err(InvalidFields(errors))
    case Ok(v) =>
      if v.password != v.confirmPassword then Err(PasswordMismatch)
      else if v.email in usernames then Err(EmailInUse)
      else Ok(v)
  }

  /** A password shorter than six characters once stripped never registers, and the error names the password field. */
  lemma ShortPasswordRefused(input: RegisterInput, usernames: set<string>, isEmail: string -> bool)
    requires input.password.Some? && |Text.Trim(input.password.value)| < PasswordMinLength
    ensures ValidateRegistration(input, usernames, isEmail).Err?
    ensures ValidateRegistration(input, usernames, isEmail).error.InvalidFields?
    ensures PasswordField in ValidateRegistration(input, usernames, isEmail).error.errors
  {
    assert RegisterCheck(input, isEmail, PasswordField).Err?;
  }

  /** The client's `is_verified` value has no effect on registration. */
  lemma RegistrationIgnoresVerifiedFlag(input: RegisterInput, claimed: Option<bool>, usernames: set<string>, isEmail: string -> bool)
    ensures ValidateRegistration(input.(isVerified := claimed), usernames, isEmail)
         == ValidateRegistration(input, usernames, isEmail)
  {
    var sent := input.(isVerified := claimed);
    forall f ensures RegisterCheck(sent, isEmail, f) == RegisterCheck(input, isEmail, f) {
    }
    assert RegisterFieldErrors(sent, isEmail) == RegisterFieldErrors(input, isEmail);
  }

  /** The user that registration creates: the e-mail is both its username and its e-mail. */
  function NewUser(v: Registration): (u: User)
    ensures u.username == v.email && u.email == v.email && u.password == v.password && !u.isStaff
  {
    User(v.email, v.email, v.password, false)
  }

  /** The seller profile that registration creates for the new user: pending, not notified, holding the descriptive fields. */
  function RegisteredSeller(v: Registration, user: UserId): (s: Seller)
    ensures s == NewSeller(user, v.businessName, v.ownerName, v.phoneNumber, v.businessId, v.address)
    ensures !s.isVerified && !s.notified
  {
    NewSeller(user, v.businessName, v.ownerName, v.phoneNumber, v.businessId, v.address)
  }

  /** Neither password reaches the seller profile. */
  lemma SellerHoldsNoPassword(v: Registration, user: UserId, password: string, confirmPassword: string)
    ensures RegisteredSeller(v.(password := password, confirmPassword := confirmPassword), user)
         == RegisteredSeller(v, user)
  {
  }

  // ---------------------------------------------------------------- logins

  /** The least element of a non-empty set of keys: what `first()` returns from a query without an ordering. */
  predicate IsLeast(m: nat, s: set<nat>)
  {
    m in s && forall x :: x in s ==> m <= x
  }

  lemma {:induction false} LeastExists(s: set<nat>)
    requires s != {}
    ensures exists m :: IsLeast(m, s)
  {
    var y :| y in s;
    if s == {y} {
      assert IsLeast(y, s);
    } else {
      var rest := s - {y};
      LeastExists(rest);
      var m :| IsLeast(m, rest);
      var least := if y < m then y else m;
      forall x | x in s ensures least <= x {
        if x != y { assert x in rest; }
      }
      assert IsLeast(least, s);
    }
  }

  function Least(s: set<nat>): (m: nat)
    requires s != {}
    ensures IsLeast(m, s)
  {
    LeastExists(s);
    var m :| IsLeast(m, s); m
  }

  /** The user with this e-mail that has the smallest key, if there is one. */
  function FirstUserWithEmail(users: map<UserId, User>, email: string): (r: Option<UserId>)
    ensures r.None? <==> forall u :: u in users ==> users[u].email != email
    ensures r.Some? ==> r.value in users && users[r.value].email == email
    ensures r.Some? ==> forall u :: u in users && users[u].email == email ==> r.value <= u
  {
    var matching := set u | u in users && users[u].email == email;
    assert forall u :: u in users && users[u].email == email ==> u in matching;
    if matching == {} then None else Some(Least(matching))
  }

  /** The user with this username, which is unique. */
  function UserNamed(users: map<UserId, User>, username: string): (r: Option<UserId>)
    requires UsernamesUnique(users)
    ensures r.None? <==> forall u :: u in users ==> users[u].username != username
    ensures r.Some? ==> r.value in users && users[r.value].username == username
  {
    if exists u :: u in users && users[u].username == username then
      Some(var u :| u in users && users[u].username == username; u)
    else None
  }

  /** A user's seller profile, which is unique. */
  function SellerProfileOf(sellers: map<SellerId, Seller>, user: UserId): (r: Option<SellerId>)
    requires OneSellerPerUser(sellers)
    ensures r.None? <==> forall s :: s in sellers ==> sellers[s].user != user
    ensures r.Some? ==> r.value in sellers && sellers[r.value].user == user
  {
    if exists s :: s in sellers && sellers[s].user == user then
      Some(var s :| s in sellers && sellers[s].user == user; s)
    else None
  }

  predicate HasAdminProfile(admins: map<AdminId, AdminProfile>, user: UserId)
  {
    exists a :: a in admins && admins[a].user == user
  }

  datatype LoginField = LoginEmailField | UsernameField | LoginPasswordField

  datatype LoginError =
    | InvalidLoginFields(errors: map<LoginField, FieldError>)
    | NoSellerWithEmail
    | InvalidPassword
    | NotASeller
    | NotAnAdmin

  /** Both fields of a login form cleaned; the errors of all failing fields otherwise. */
  function CleanLogin(nameField: LoginField, name: Result<string, FieldError>, password: Option<string>): (r: Result<(string, string), LoginError>)
    ensures r.Ok? <==> name.Ok? && CleanChar(password, 0, None).Ok?
    ensures r.Ok? ==> r.value == (name.value, CleanChar(password, 0, None).value)
    ensures r.Err? ==> r.error.InvalidLoginFields?
    ensures r.Err? && nameField != LoginPasswordField ==>
      && (nameField in r.error.errors <==> name.Err?)
      && (LoginPasswordField in r.error.errors <==> CleanChar(password, 0, None).Err?)
      && (forall f :: f in r.error.errors ==> f == nameField || f == LoginPasswordField)
      && (name.Err? ==> r.error.errors[nameField] == name.error)
      && (CleanChar(password, 0, None).Err? ==> r.error.errors[LoginPasswordField] == CleanChar(password, 0, None).error)
  {
    var pw := CleanChar(password, 0, None);
    if name.Ok? && pw.Ok? then Ok((name.value, pw.value))
    else
      var errors := (if name.Err? then map[nameField := name.error] else map[])
                  + (if pw.Err? then map[LoginPasswordField := pw.error] else map[]);
      Err(InvalidLoginFields(errors))
  }

  /**
   * Seller login. After the fields, it fails in this order: no user has the
   * e-mail; the password does not authenticate the first such user; that user
   * has no seller profile. On success it yields that user and its profile.
   */
  function SellerLogin(users: map<UserId, User>, sellers: map<SellerId, Seller>,
                       email: Option<string>, password: Option<string>,
                       isEmail: string -> bool, authenticate: (string, string) -> bool): (r: Result<(UserId, SellerId), LoginError>)
    requires OneSellerPerUser(sellers)
    ensures var c := CleanLogin(LoginEmailField, CleanEmail(email, isEmail), password);
      c.Err? ==> r == Err(c.error)
    ensures var c := CleanLogin(LoginEmailField, CleanEmail(email, isEmail), password);
      c.Err? <==> r.Err? && r.error.InvalidLoginFields?
    ensures r == Err(NoSellerWithEmail) <==>
      && CleanLogin(LoginEmailField, CleanEmail(email, isEmail), password).Ok?
      && forall u :: u in users ==> users[u].email != Text.Trim(email.value)
    ensures r.Ok? ==>
      var (uid, sid) := r.value;
      && CleanLogin(LoginEmailField, CleanEmail(email, isEmail), password).Ok?
      && uid in users && users[uid].email == Text.Trim(email.value)
      && (forall u :: u in users && users[u].email == users[uid].email ==> uid <= u)
      && authenticate(users[uid].username, Text.Trim(password.value))
      && sid in sellers && sellers[sid].user == uid
    ensures var c := CleanLogin(LoginEmailField, CleanEmail(email, isEmail), password);
      r == Err(InvalidPassword) <==>
        && c.Ok?
        && var first := FirstUserWithEmail(users, c.value.0);
        && first.Some?
        && !authenticate(users[first.value].username, c.value.1)
    ensures var c := CleanLogin(LoginEmailField, CleanEmail(email, isEmail), password);
      r == Err(NotASeller) <==>
        && c.Ok?
        && var first := FirstUserWithEmail(users, c.value.0);
        && first.Some?
        && authenticate(users[first.value].username, c.value.1)
        && SellerProfileOf(sellers, first.value).None?
    ensures var c := CleanLogin(LoginEmailField, CleanEmail(email, isEmail), password);
      r.Ok? <==>
        && c.Ok?
        && var first := FirstUserWithEmail(users, c.value.0);
        && first.Some?
        && authenticate(users[first.value].username, c.value.1)
        && SellerProfileOf(sellers, first.value).Some?
    ensures r.Ok? ==>
      var first := FirstUserWithEmail(users, Text.Trim(email.value));
      first.Some? && r.value == (first.value, SellerProfileOf(sellers, first.value).value)
  {
    match CleanLogin(LoginEmailField, CleanEmail(email, isEmail), password)
    case Err(e) => Err(e)
    case Ok((address, secret)) =>
      match FirstUserWithEmail(users, address)
      case None => Err(NoSellerWithEmail)
      case Some(uid) =>
        if !authenticate(users[uid].username, secret) then Err(InvalidPassword)
        else match SellerProfileOf(sellers, uid)
          case None => Err(NotASeller)
          case Some(sid) => Ok((uid, sid))
  }

  /**
   * Admin login: the credentials must authenticate an existing user, and that
   * user must have an admin profile; both failures give the same error.
   */
  function AdminLogin(users: map<UserId, User>, admins: map<AdminId, AdminProfile>,
                      username: Option<string>, password: Option<string>,
                      authenticate: (string, string) -> bool): (r: Result<UserId, LoginError>)
    requires UsernamesUnique(users)
    ensures CleanLogin(UsernameField, CleanChar(username, 0, None), password).Err? ==>
      r == Err(CleanLogin(UsernameField, CleanChar(username, 0, None), password).error)
    ensures CleanLogin(UsernameField, CleanChar(username, 0, None), password).Ok? && r.Err? ==> r.error == NotAnAdmin
    ensures r.Ok? <==>
      && CleanLogin(UsernameField, CleanChar(username, 0, None), password).Ok?
      && exists u :: u in users && users[u].username == Text.Trim(username.value)
                   && authenticate(Text.Trim(username.value), Text.Trim(password.value))
                   && HasAdminProfile(admins, u)
    ensures r.Ok? ==> r.value in users && users[r.value].username == Text.Trim(username.value) && HasAdminProfile(admins, r.value)
    ensures r.Err? ==> r.error.InvalidLoginFields? || r.error == NotAnAdmin
  {
    match CleanLogin(UsernameField, CleanChar(username, 0, None), password)
    case Err(e) => Err(e)
    case Ok((name, secret)) =>
      match UserNamed(users, name)
      case None => Err(NotAnAdmin)
      case Some(uid) =>
        if authenticate(name, secret) && HasAdminProfile(admins, uid) then Ok(uid) else Err(NotAnAdmin)
  }

  /** A staff flag alone does not make an admin: a staff user without an admin profile cannot log in as one. */
  lemma StaffWithoutProfileIsNoAdmin(users: map<UserId, User>, admins: map<AdminId, AdminProfile>,
                                     uid: UserId, password: string, authenticate: (string, string) -> bool)
    requires UsernamesUnique(users) && uid in users && users[uid].isStaff
    requires Text.Trim(users[uid].username) == users[uid].username
    requires !HasAdminProfile(admins, uid)
    ensures AdminLogin(users, admins, Some(users[uid].username), Some(password), authenticate).Err?
  {
  }

  // ---------------------------------------------------------------- representations

  /** What anyone may see of a seller: no phone number, business id or notification flag. */
  datatype PublicSeller = PublicSeller(businessName: string, ownerName: string, email: string, address: string, isVerified: bool)

  function PublicView(s: Seller, users: map<UserId, User>): (p: PublicSeller)
    requires s.user in users
    ensures p.businessName == s.businessName && p.ownerName == s.ownerName && p.address == s.address
    ensures p.email == users[s.user].email && p.isVerified == s.isVerified
  {
    PublicSeller(s.businessName, s.ownerName, users[s.user].email, s.address, s.isVerified)
  }

  /** Two sellers that differ only in phone number, business id or notification flag look the same in public. */
  lemma PublicViewHidesPrivateFields(s: Seller, users: map<UserId, User>, phoneNumber: string, businessId: string, notified: bool)
    requires s.user in users
    ensures PublicView(s.(phoneNumber := phoneNumber, businessId := businessId, notified := notified), users)
         == PublicView(s, users)
  {
  }

  // ---------------------------------------------------------------- full seller update

  /**
   * A full update of a seller profile (every model field is writable): the
   * user link and the text fields are required, the two flags may be left
   * out and then keep their stored values.
   */
  datatype SellerInput = SellerInput(
    user: Option<UserId>,
    businessName: Option<string>,
    ownerName: Option<string>,
    phoneNumber: Option<string>,
    businessId: Option<string>,
    address: Option<string>,
    isVerified: Option<bool>,
    notified: Option<bool>)

  datatype SellerField =
    | SellerUserField | SellerBusinessNameField | SellerOwnerNameField
    | SellerPhoneNumberField | SellerBusinessIdField | SellerAddressField

  datatype SellerFieldError = CharError(error: FieldError) | UserRequired | NoSuchUser | UserTaken

  /**
   * The user link of seller `id`: required, an existing user, and not the user
   * of any other seller profile (the one-to-one link is unique).
   */
  function CleanSellerUser(raw: Option<UserId>, id: SellerId, users: map<UserId, User>,
                           sellers: map<SellerId, Seller>): (r: Result<UserId, SellerFieldError>)
    ensures r.Ok? <==>
      raw.Some? && raw.value in users && forall s :: s in sellers && s != id ==> sellers[s].user != raw.value
    ensures r.Ok? ==> r.value == raw.value
    ensures raw.None? ==> r == Err(UserRequired)
    ensures raw.Some? && raw.value !in users ==> r == Err(NoSuchUser)
    ensures raw.Some? && raw.value in users && r.Err? ==> r.error == UserTaken
  {
    match raw
    case None => Err(UserRequired)
    case Some(u) =>
      if u !in users then Err(NoSuchUser)
      else if exists s :: s in sellers && s != id && sellers[s].user == u then Err(UserTaken)
      else Ok(u)
  }

  function CharFieldError(c: Result<string, FieldError>): Option<SellerFieldError>
  {
    if c.Err? then Some(CharError(c.error)) else None
  }

  /** The error of one field of the seller form, if it has one. */
  function SellerCheck(input: SellerInput, id: SellerId, users: map<UserId, User>,
                       sellers: map<SellerId, Seller>, f: SellerField): Option<SellerFieldError>
  {
    match f
    case SellerUserField =>
      var u := CleanSellerUser(input.user, id, users, sellers);
      if u.Err? then Some(u.error) else None
    case SellerBusinessNameField => CharFieldError(CleanChar(input.businessName, 0, Some(BusinessNameMax)))
    case SellerOwnerNameField => CharFieldError(CleanChar(input.ownerName, 0, Some(OwnerNameMax)))
    case SellerPhoneNumberField => CharFieldError(CleanChar(input.phoneNumber, 0, Some(PhoneNumberMax)))
    case SellerBusinessIdField => CharFieldError(CleanChar(input.businessId, 0, Some(BusinessIdMax)))
    case SellerAddressField => CharFieldError(CleanChar(input.address, 0, None))
  }

  const SellerFields: set<SellerField> :=
    {SellerUserField, SellerBusinessNameField, SellerOwnerNameField,
     SellerPhoneNumberField, SellerBusinessIdField, SellerAddressField}

  lemma SellerFieldsComplete()
    ensures forall f: SellerField :: f in SellerFields
  {
    forall f: SellerField ensures f in SellerFields {
      match f
      case SellerUserField =>
      case SellerBusinessNameField =>
      case SellerOwnerNameField =>
      case SellerPhoneNumberField =>
      case SellerBusinessIdField =>
      case SellerAddressField =>
    }
  }

  /** The map from each field of the seller form that fails to its error. */
  function SellerFieldErrors(input: SellerInput, id: SellerId, users: map<UserId, User>,
                             sellers: map<SellerId, Seller>): (errors: map<SellerField, SellerFieldError>)
    ensures forall f :: f in errors <==> SellerCheck(input, id, users, sellers, f).Some?
    ensures forall f :: f in errors ==> errors[f] == SellerCheck(input, id, users, sellers, f).value
  {
    SellerFieldsComplete();
    map f | f in SellerFields && SellerCheck(input, id, users, sellers, f).Some? :: SellerCheck(input, id, users, sellers, f).value
  }

  /**
   * Validation of a full update of seller `id`: either the updated profile,
   * or the map of every failing field with its error. A flag that is sent
   * replaces the stored one.
   */
  function CleanSellerUpdate(input: SellerInput, id: SellerId, users: map<UserId, User>,
                             sellers: map<SellerId, Seller>): (r: Result<Seller, map<SellerField, SellerFieldError>>)
    requires id in sellers
    ensures r.Err? ==> r.error != map[] && r.error == SellerFieldErrors(input, id, users, sellers)
    ensures r.Ok? <==> forall f :: SellerCheck(input, id, users, sellers, f).None?
    ensures r.Ok? ==>
      && input.user.Some? && input.businessName.Some? && input.ownerName.Some?
      && input.phoneNumber.Some? && input.businessId.Some? && input.address.Some?
    ensures r.Ok? ==>
      && r.value.user in users && (forall s :: s in sellers && s != id ==> sellers[s].user != r.value.user)
      && SellerFits(r.value)
      && r.value.user == input.user.value
      && r.value.businessName == Text.Trim(input.businessName.value)
      && r.value.ownerName == Text.Trim(input.ownerName.value)
      && r.value.phoneNumber == Text.Trim(input.phoneNumber.value)
      && r.value.businessId == Text.Trim(input.businessId.value)
      && r.value.address == Text.Trim(input.address.value)
    ensures r.Ok? ==> r.value.isVerified == (if input.isVerified.Some? then input.isVerified.value else sellers[id].isVerified)
    ensures r.Ok? ==> r.value.notified == (if input.notified.Some? then input.notified.value else sellers[id].notified)
  {
    var errors := SellerFieldErrors(input, id, users, sellers);
    if errors != map[] then
      Err(errors)
    else
      SellerFieldsClean(input, id, users, sellers);
      var stored := sellers[id];
      Ok(Seller(input.user.value,
        Text.Trim(input.businessName.value), Text.Trim(input.ownerName.value),
        Text.Trim(input.phoneNumber.value), Text.Trim(input.businessId.value),
        Text.Trim(input.address.value),
        if input.isVerified.Some? then input.isVerified.value else stored.isVerified,
        if input.notified.Some? then input.notified.value else stored.notified))
  }

  /** With no field error, every field of the seller form cleans. */
  lemma SellerFieldsClean(input: SellerInput, id: SellerId, users: map<UserId, User>, sellers: map<SellerId, Seller>)
    requires SellerFieldErrors(input, id, users, sellers) == map[]
    ensures forall f :: SellerCheck(input, id, users, sellers, f).None?
    ensures CleanSellerUser(input.user, id, users, sellers).Ok?
    ensures CleanChar(input.businessName, 0, Some(BusinessNameMax)).Ok?
    ensures CleanChar(input.ownerName, 0, Some(OwnerNameMax)).Ok?
    ensures CleanChar(input.phoneNumber, 0, Some(PhoneNumberMax)).Ok?
    ensures CleanChar(input.businessId, 0, Some(BusinessIdMax)).Ok?
    ensures CleanChar(input.address, 0, None).Ok?
  {
    var errors := SellerFieldErrors(input, id, users, sellers);
    forall f ensures SellerCheck(input, id, users, sellers, f).None? {
      assert f !in errors;
    }
    assert SellerCheck(input, id, users, sellers, SellerUserField).None?;
    assert SellerCheck(input, id, users, sellers, SellerBusinessNameField).None?;
    assert SellerCheck(input, id, users, sellers, SellerOwnerNameField).None?;
    assert SellerCheck(input, id, users, sellers, SellerPhoneNumberField).None?;
    assert SellerCheck(input, id, users, sellers, SellerBusinessIdField).None?;
    assert SellerCheck(input, id, users, sellers, SellerAddressField).None?;
  }

  /** A stored text value that its field would accept again unchanged. */
  predicate Resubmittable(value: string, maxLength: Option<nat>)
  {
    CleanChar(Some(value), 0, maxLength) == Ok(value)
  }

  /** The form that sends a seller's stored fields back with only the verification flag set. */
  function FlagOnly(s: Seller, v: bool): (input: SellerInput)
    ensures input.isVerified == Some(v) && input.notified.None? && input.user == Some(s.user)
  {
    SellerInput(Some(s.user), Some(s.businessName), Some(s.ownerName), Some(s.phoneNumber),
      Some(s.businessId), Some(s.address), Some(v), None)
  }

  /**
   * A full update can set or clear the verification flag of any seller whose
   * stored fields are well-formed: sending them back with a new flag changes
   * that flag and nothing else.
   */
  lemma FullUpdateSetsFlag(users: map<UserId, User>, sellers: map<SellerId, Seller>, id: SellerId, v: bool)
    requires id in sellers && OneSellerPerUser(sellers) && sellers[id].user in users
    requires Resubmittable(sellers[id].businessName, Some(BusinessNameMax))
    requires Resubmittable(sellers[id].ownerName, Some(OwnerNameMax))
    requires Resubmittable(sellers[id].phoneNumber, Some(PhoneNumberMax))
    requires Resubmittable(sellers[id].businessId, Some(BusinessIdMax))
    requires Resubmittable(sellers[id].address, None)
    ensures CleanSellerUpdate(FlagOnly(sellers[id], v), id, users, sellers) == Ok(sellers[id].(isVerified := v))
  {
    var s := sellers[id];
    var input := FlagOnly(s, v);
    assert CleanSellerUser(input.user, id, users, sellers).Ok?;
    forall f ensures SellerCheck(input, id, users, sellers, f).None? {
    }
  }

  // ---------------------------------------------------------------- products

  /** The product form; `seller` is read-only, so what the client puts there is never read. */
  datatype ProductInput = ProductInput(
    seller: Option<SellerId>,
    name: Option<string>,
    priceCents: Option<int>,
    description: Option<string>,
    image: Option<string>)

  datatype ProductField = NameField | PriceField | DescriptionField | ImageField

  datatype ProductFieldError = Char(error: FieldError) | PriceRequired | PriceTooManyDigits | ImageRequired | ImageNameTooLong

  /** The price field: required, and at most ten digits with two after the point. */
  function CleanPrice(raw: Option<int>): (r: Result<int, ProductFieldError>)
    ensures r.Ok? <==> raw.Some? && PriceFits(raw.value)
    ensures r.Ok? ==> r.value == raw.value
    ensures raw.None? ==> r == Err(PriceRequired)
    ensures raw.Some? && !PriceFits(raw.value) ==> r == Err(PriceTooManyDigits)
  {
    match raw
    case None => Err(PriceRequired)
    case Some(c) => if PriceFits(c) then Ok(c) else Err(PriceTooManyDigits)
  }

  /** The image field: a named, non-empty file must be submitted, and its name must fit the column. */
  function CleanImage(raw: Option<string>): (r: Result<string, ProductFieldError>)
    ensures r.Ok? <==> raw.Some? && raw.value != "" && |raw.value| <= ImageNameMax
    ensures r.Ok? ==> r.value == raw.value
    ensures raw.None? || raw.value == "" ==> r == Err(ImageRequired)
    ensures raw.Some? && |raw.value| > ImageNameMax ==> r == Err(ImageNameTooLong)
  {
    if raw.None? || raw.value == "" then Err(ImageRequired)
    else if |raw.value| > ImageNameMax then Err(ImageNameTooLong)
    else Ok(raw.value)
  }

  /** The error of one field of the product form, if it has one. */
  function ProductCheck(input: ProductInput, f: ProductField): Option<ProductFieldError>
  {
    match f
    case NameField =>
      var c := CleanChar(input.name, 0, Some(ProductNameMax));
      if c.Err? then Some(Char(c.error)) else None
    case PriceField =>
      var c := CleanPrice(input.priceCents);
      if c.Err? then Some(c.error) else None
    case DescriptionField =>
      var c := CleanChar(input.description, 0, None);
      if c.Err? then Some(Char(c.error)) else None
    case ImageField =>
      var c := CleanImage(input.image);
      if c.Err? then Some(c.error) else None
  }

  const ProductFields: set<ProductField> := {NameField, PriceField, DescriptionField, ImageField}

  lemma ProductFieldsComplete()
    ensures forall f: ProductField :: f in ProductFields
  {
    forall f: ProductField ensures f in ProductFields {
      match f
      case NameField =>
      case PriceField =>
      case DescriptionField =>
      case ImageField =>
    }
  }

  /** The map from each field of the product form that fails to its error. */
  function ProductFieldErrors(input: ProductInput): (errors: map<ProductField, ProductFieldError>)
    ensures forall f :: f in errors <==> ProductCheck(input, f).Some?
    ensures forall f :: f in errors ==> errors[f] == ProductCheck(input, f).value
  {
    ProductFieldsComplete();
    map f | f in ProductFields && ProductCheck(input, f).Some? :: ProductCheck(input, f).value
  }

  /** The product the form describes, owned by `owner` whatever the form says. */
  function CleanProduct(input: ProductInput, owner: SellerId): (r: Result<Product, map<ProductField, ProductFieldError>>)
    ensures r.Ok? <==>
      && CleanChar(input.name, 0, Some(ProductNameMax)).Ok?
      && CleanPrice(input.priceCents).Ok?
      && CleanChar(input.description, 0, None).Ok?
      && CleanImage(input.image).Ok?
    ensures r.Ok? ==>
      && r.value.seller == owner
      && r.value.name == Text.Trim(input.name.value) && r.value.name != [] && |r.value.name| <= ProductNameMax
      && r.value.priceCents == input.priceCents.value && PriceFits(r.value.priceCents)
      && r.value.description == Text.Trim(input.description.value)
      && r.value.image == input.image.value && |r.value.image| <= ImageNameMax
    ensures r.Ok? ==> ProductFits(r.value)
    ensures r.Err? ==> r.error != map[] && r.error == ProductFieldErrors(input)
    ensures r.Err? ==>
      && (NameField in r.error <==> CleanChar(input.name, 0, Some(ProductNameMax)).Err?)
      && (PriceField in r.error <==> CleanPrice(input.priceCents).Err?)
      && (DescriptionField in r.error <==> CleanChar(input.description, 0, None).Err?)
      && (ImageField in r.error <==> CleanImage(input.image).Err?)
    ensures r.Err? && NameField in r.error ==> r.error[NameField] == Char(CleanChar(input.name, 0, Some(ProductNameMax)).error)
    ensures r.Err? && PriceField in r.error ==> r.error[PriceField] == CleanPrice(input.priceCents).error
    ensures r.Err? && DescriptionField in r.error ==> r.error[DescriptionField] == Char(CleanChar(input.description, 0, None).error)
    ensures r.Err? && ImageField in r.error ==> r.error[ImageField] == CleanImage(input.image).error
  {
    var errors := ProductFieldErrors(input);
    assert ProductCheck(input, NameField).None? <==> NameField !in errors;
    assert ProductCheck(input, PriceField).None? <==> PriceField !in errors;
    assert ProductCheck(input, DescriptionField).None? <==> DescriptionField !in errors;
    assert ProductCheck(input, ImageField).None? <==> ImageField !in errors;
    if errors != map[] then
      Err(errors)
    else
      Ok(Product(owner, Text.Trim(input.name.value), input.priceCents.value,
        Text.Trim(input.description.value), input.image.value))
  }

  /** Whatever seller the client names in the form, the outcome is the same. */
  lemma ProductOwnerIgnoresInput(input: ProductInput, claimed: Option<SellerId>, owner: SellerId)
    ensures CleanProduct(input.(seller := claimed), owner) == CleanProduct(input, owner)
  {
    var sent := input.(seller := claimed);
    forall f ensures ProductCheck(sent, f) == ProductCheck(input, f) {
    }
    assert ProductFieldErrors(sent) == ProductFieldErrors(input);
  }
}
