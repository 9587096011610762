# Seller verification workflow of the `mediater` marketplace app

This project models, in Dafny, the seller verification workflow of the
`mediater` Django application: sellers register, sign in, wait in a pending
list until someone approves them, and only a verified seller may upload
products. Buyers browse the verified sellers and look one up by business
name.

- `wrappers.dfy` (module `Wrappers`): `Option` and `Result`.
- `text.dfy` (module `Text`): Python's `str.strip` (the whitespace set of
  `str.isspace`) and an ASCII upper-case fold for case-insensitive matching.
- `models.dfy` (module `Models`): the records `User`, `Seller`, `Product`,
  `Buyer`, `Review` and `AdminProfile` with their defaults, column limits and
  display strings. `Tables` is the whole database, and `Integrity` says what
  the schema guarantees, one predicate per table: unique usernames, one
  profile per user, unique buyer e-mails, links that resolve, and rows that
  fit their columns (text lengths, including Django's 150-character username
  and 254-character e-mail, the price's digits, the rating's range). The
  file also holds the deletion rules (CASCADE and SET_NULL) as functions on
  `Tables`.
- `serializers.dfy` (module `Serializers`): field cleaning as Django REST
  framework does it. This covers required, blank, trimmed and length checks,
  registration validation in its order, the records registration creates,
  seller and admin login, the public seller representation and product input
  with its read-only owner.
- `views.dfy` (module `Views`): permission classes with their 401/403
  answers, the list queries, the approve and verify transitions, the lookup
  by business name, and the class `Store`. `Store` holds the tables in maps
  and offers one method per request handler. The approve route also answers
  a full update (PUT) that its view inherits from the framework's update
  view; `UpdateSeller` models it. The handlers that write (register,
  approve, full update, verify, upload) change only the fields in their
  `modifies` clauses. Each one keeps `Valid()`, which is `Integrity` plus
  keys below the next auto-increment key.

Requests are taken one at a time. Password checking (`authenticate`) and
e-mail syntax (`EmailField`) are opaque predicates passed in as parameters.

## Model

| member | source | states |
|---|---|---|
| Text.Trim | verified/mediater/views.py:226 | The stripped string keeps no leading or trailing whitespace and is empty exactly when the input is all whitespace. |
| Text.TrimPadded | verified/mediater/views.py:226 | Whitespace padding around a stripped string is removed and nothing else changes. |
| Text.TrimIdempotent | verified/mediater/views.py:226 | Stripping twice is stripping once. |
| Text.TrimKeepsNonSpace | verified/mediater/views.py:226 | A non-whitespace character of the input occurs in the stripped result. |
| Text.SameUpToCase | verified/mediater/views.py:226 | Two strings compare equal under the case-insensitive match exactly when they have the same length and agree position by position up to ASCII letter case. |
| Models.NewSeller | verified/mediater/models.py:6-14 | A new seller profile is neither verified nor notified and holds exactly the given user link and descriptive fields. |
| Models.LargestPrice | verified/mediater/models.py:22 | Example: a price of 10 digits with 2 decimals is at most 9 999 999 999 cents in absolute value, with 8 digits before the point. |
| Models.ReviewRating | verified/mediater/models.py:55 | A missing rating becomes 5; a given one is kept exactly when it is in 0..32767 and refused otherwise. |
| Models.BuyerDisplay | verified/mediater/models.py:42-43 | The buyer shows as its full name when that is non-empty, else as its e-mail. |
| Models.ReviewDisplay | verified/mediater/models.py:60-61 | A review shows as "Review by" the buyer name, else the e-mail (`None` when absent), "for" the seller's business name. |
| Models.Integrity | verified/mediater/models.py:6-73 | The schema's guarantees, one predicate per table: unique usernames, one seller, buyer and admin profile per user, unique buyer e-mails, foreign keys that resolve, and every row within its column bounds. |
| Models.OwnersExist | verified/mediater/models.py:7-20 | Under the schema, every product and every review leads through its seller profile to an existing user. |
| Models.DeleteSellers | verified/mediater/models.py:20-50 | Deleting sellers removes exactly those sellers, their products and the reviews about them; every other row and table is unchanged. |
| Models.DeleteSeller | verified/mediater/models.py:20-50 | Deleting one seller removes it and exactly the products and reviews that point at it. Every surviving seller, product and review is unchanged, and the users, buyers and admin profiles stay as they were. |
| Models.DeleteBuyers | verified/mediater/models.py:51 | Deleting buyers keeps every review and clears the buyer link only on reviews that pointed at a deleted buyer. |
| Models.DeleteBuyer | verified/mediater/models.py:51 | Deleting one buyer removes only that buyer, leaves every other buyer unchanged, keeps every review, clears the link on that buyer's reviews and leaves every other review field as it was. Users, sellers, products and admin profiles stay as they were. |
| Models.DeleteUser | verified/mediater/models.py:7-68 | Deleting a user leaves no user row and no seller, buyer or admin profile for it. Every other user and every profile of another user survives unchanged. A product survives exactly when its seller is not the user's, and so does a review. A surviving review loses its buyer link exactly when that buyer was the user's. |
| Models.DeleteSellersKeepsIntegrity | verified/mediater/models.py:20-50 | Cascading seller deletion keeps every schema guarantee. |
| Models.DeleteBuyersKeepsIntegrity | verified/mediater/models.py:51 | SET_NULL buyer deletion keeps every schema guarantee. |
| Models.DropUserKeepsIntegrity | verified/mediater/models.py:68 | Removing a user with its admin profiles, once no seller or buyer refers to it, keeps every schema guarantee. |
| Models.DeleteUserKeepsIntegrity | verified/mediater/models.py:7-68 | Deleting a user, with all its cascades, keeps every schema guarantee. |
| Serializers.CleanChar | verified/mediater/serializers.py:12-13 | A character field is refused when missing, blank after trimming, longer than its maximum, shorter than its minimum or holding a NUL character, with the error of the first of these checks that fails; otherwise it is the trimmed value. |
| Serializers.NullCharacterRefused | verified/mediater/serializers.py:12-13 | A value with a NUL character anywhere is refused, whatever the field's length limits. |
| Serializers.CleanEmail | verified/mediater/serializers.py:11 | An e-mail field is accepted exactly when it cleans as a character field and the trimmed value is an e-mail address. A character-field failure is reported as that field's error, and a clean value that is not an address as "not an e-mail". |
| Serializers.RegisterFieldsComplete | verified/mediater/serializers.py:21-29 | The registration form checks every one of its eight input fields. |
| Serializers.RegisterFieldErrors | verified/mediater/serializers.py:21-29 | The field errors are reported for exactly the fields that fail their own check. |
| Serializers.CleanRegistration | verified/mediater/serializers.py:10-33 | The form is valid exactly when every field check passes; then it holds the trimmed values, and otherwise it reports the non-empty map of field errors. |
| Serializers.RegisterFieldsClean | verified/mediater/serializers.py:21-29 | When every field check passes, each field's own cleaning succeeds. |
| Serializers.ValidateRegistration | verified/mediater/serializers.py:35-40 | Field errors come first, then mismatched passwords, and only then an e-mail already used as a username; validation succeeds exactly when the fields clean, both passwords agree and the e-mail is not a username. |
| Serializers.ShortPasswordRefused | verified/mediater/serializers.py:12 | A password of fewer than 6 characters after trimming is refused as a field error on the password. |
| Serializers.RegistrationIgnoresVerifiedFlag | verified/mediater/serializers.py:17 | A client-sent `is_verified` value does not change the validation result. |
| Serializers.NewUser | verified/mediater/serializers.py:43-46 | The new user's username and e-mail are both the given e-mail, with the given password, not staff. |
| Serializers.RegisteredSeller | verified/mediater/serializers.py:47 | The new seller profile links to the new user, holds the descriptive fields and starts unverified and unnotified. |
| Serializers.SellerHoldsNoPassword | verified/mediater/serializers.py:43-47 | The seller profile does not depend on the password or its confirmation. |
| Serializers.FirstUserWithEmail | verified/mediater/serializers.py:61-63 | The user found is the one with the least key among those with that e-mail; none exactly when no user has it. |
| Serializers.UserNamed | verified/mediater/serializers.py:120 | With unique usernames, the user with that username, or none exactly when nobody has it. |
| Serializers.SellerProfileOf | verified/mediater/serializers.py:67 | The user's one seller profile, or none exactly when no profile links to it. |
| Serializers.CleanLogin | verified/mediater/serializers.py:55-56 | Login input is accepted exactly when both fields clean, and then it is the cleaned pair. Otherwise the error map names exactly the fields that fail, each with its own error. |
| Serializers.SellerLogin | verified/mediater/serializers.py:58-71 | Failures come in order: field errors, no user with the e-mail, wrong password, no seller profile. Each failure happens exactly when the earlier checks pass and its own check fails. Login succeeds exactly when the password authenticates for the first user with that e-mail and that user has a seller profile, and yields that user and profile. |
| Serializers.AdminLogin | verified/mediater/serializers.py:117-122 | Login succeeds exactly when the fields clean, the credentials authenticate for a user with that username, and that user has an admin profile. Field errors are passed on as they are; every other failure is the one "not an admin" error. |
| Serializers.StaffWithoutProfileIsNoAdmin | verified/mediater/serializers.py:121 | A staff user without an admin profile, whose stored username is already stripped, cannot log in as admin with any password. |
| Serializers.PublicView | verified/mediater/serializers.py:135-147 | The public representation holds business name, owner name, the user's e-mail, address and the verified flag. |
| Serializers.PublicViewHidesPrivateFields | verified/mediater/serializers.py:140-146 | Phone number, business id and notified flag have no effect on the public representation. |
| Serializers.CleanSellerUser | verified/mediater/models.py:7 | The user link of a full seller update is accepted exactly when given, naming an existing user, and not the user of another seller profile; each failure has its own error. |
| Serializers.SellerFieldsComplete | verified/mediater/serializers.py:77-82 | The full seller form checks each of its six required fields. |
| Serializers.SellerFieldErrors | verified/mediater/serializers.py:77-82 | The field errors are reported for exactly the fields that fail their own check. |
| Serializers.CleanSellerUpdate | verified/mediater/serializers.py:77-82 | A full seller update is valid exactly when every field check passes. Then the profile links to an existing user no other profile has, fits its columns, holds the trimmed values, and takes each flag from the form when sent and keeps the stored one otherwise. Otherwise it reports the non-empty map of field errors. |
| Serializers.SellerFieldsClean | verified/mediater/serializers.py:77-82 | When no field of the seller form fails, each field's own cleaning succeeds. |
| Serializers.FullUpdateSetsFlag | verified/mediater/serializers.py:77-82 | Sending a seller's well-formed stored fields back with a new verification flag validates and changes that flag and nothing else. |
| Serializers.CleanPrice | verified/mediater/models.py:22 | A price is accepted exactly when present and within 10 digits with 2 decimals. A missing price and one with too many digits give their own errors. |
| Serializers.CleanImage | verified/mediater/models.py:24 | An image is accepted exactly when a named file is given whose name is at most 100 characters long (the field's default column length). A missing file and a name that is too long give their own errors. |
| Serializers.ProductFieldsComplete | verified/mediater/serializers.py:94-98 | The product form checks each of its four writable fields. |
| Serializers.ProductFieldErrors | verified/mediater/serializers.py:94-98 | The field errors are reported for exactly the product fields that fail their own check. |
| Serializers.CleanProduct | verified/mediater/serializers.py:94-98 | A product is valid exactly when name, price, description and image all clean. The result belongs to the given owner with the cleaned values and fits the product's columns. Otherwise the error map names exactly the fields that fail, each with its own error. |
| Serializers.ProductOwnerIgnoresInput | verified/mediater/serializers.py:98 | A seller sent by the client does not change the product's validation or owner. |
| Views.Denial | verified/mediater/views.py:174-183 | A permission passes exactly when it is AllowAny, or IsAuthenticated for a signed-in user, or IsAdminUser for a staff user. Anonymous requesters get 401 and signed-in ones 403. |
| Views.SellerMayApproveItself | verified/mediater/views.py:86-97 | The approve guard admits a seller's own user, so a seller can approve its own profile. |
| Views.VerifyNeedsStaffFlag | verified/mediater/views.py:174-183 | A user with an admin profile but no staff flag is refused (403) by the verify and full-list endpoints. |
| Views.Pending | verified/mediater/views.py:63-64 | The pending list holds exactly the unverified sellers, unchanged. |
| Views.Verified | verified/mediater/views.py:79-80 | The verified list holds exactly the verified sellers, unchanged. |
| Views.Unnotified | verified/mediater/views.py:111-112 | The notifications list holds exactly the sellers not yet notified, unchanged. |
| Views.PendingVerifiedPartition | verified/mediater/views.py:63-80 | Pending and verified lists are disjoint, cover all sellers, and their sizes add up to the number of sellers. |
| Views.PublicListing | verified/mediater/views.py:71-80 | The public verified list has the verified sellers' keys, each in its public representation. |
| Views.SetVerified | verified/mediater/views.py:94-97 | Saving the flag changes only the target's `is_verified`; all its other fields and every other seller stay as they were. |
| Views.NextVerified | verified/mediater/views.py:187-191 | `approve` sets the flag, `reject` clears it, and any other action keeps it. |
| Views.ApproveIdempotent | verified/mediater/views.py:94-97 | Approving twice is approving once. |
| Views.LastSettingWins | verified/mediater/views.py:185-192 | Of two settings the last one wins, so rejecting after approving leaves the seller pending. |
| Views.OtherActionChangesNothing | verified/mediater/views.py:187-194 | An action other than `approve` or `reject` leaves every seller as it was. |
| Views.SetVerifiedMovesSeller | verified/mediater/views.py:94-112 | Setting the flag moves only that seller between the pending and verified lists and leaves the set of sellers on the notifications list as it was. |
| Views.SetVerifiedKeepsIntegrity | verified/mediater/views.py:96-97 | Changing one seller's flag keeps every schema guarantee. |
| Views.AddProductKeepsIntegrity | verified/mediater/views.py:139 | Adding a product of an existing seller, at a fresh key and fitting its columns (name, price digits, image name), keeps every schema guarantee. |
| Views.AddUserKeepsIntegrity | verified/mediater/serializers.py:46 | Adding a user that fits its columns (username and e-mail lengths), with a new username, at a fresh key keeps every schema guarantee. |
| Views.AddSellerKeepsIntegrity | verified/mediater/serializers.py:47 | Adding a seller profile that fits its columns, at a fresh key, for an existing user that has none keeps every schema guarantee. |
| Views.ReplaceSellerKeepsIntegrity | verified/mediater/views.py:86-92 | Replacing a seller profile by one that fits, linked to an existing user no other profile has, keeps every schema guarantee. |
| Views.FullUpdateActsAsVerify | verified/mediater/views.py:86-92 | Any signed-in user passes the full update's permission, and the update reaches the same seller table as the staff-only verify setting that flag. |
| Views.BusinessMatches | verified/mediater/views.py:225-227 | The matches are exactly the verified sellers whose business name equals the stripped name up to case. |
| Views.LookupByBusiness | verified/mediater/views.py:224-229 | The lookup succeeds exactly when there is one match, and returns it. No match gives 404; several give the unhandled multiple-match error. |
| Views.LookupIgnoresCaseAndWhitespace | verified/mediater/views.py:226 | Names equal up to case and surrounding whitespace get the same answer. |
| Views.LookupSkipsPending | verified/mediater/views.py:226 | A pending seller is never returned by the lookup. |
| Views.LookupFindsSoleMatch | verified/mediater/views.py:225-231 | A verified seller that is the only match is the one returned. |
| Views.AcmeFoundAsLowerCase | verified/mediater/views.py:225-227 | Example: the only verified seller named "Acme" is found by " acme ". |
| Views.AcmeMatchesPaddedLowerCase | verified/mediater/views.py:226 | Example: "Acme" matches " acme " once stripped, up to case. |
| Views.Store.constructor | verified/mediater/models.py:6-73 | A store over a database that meets the schema, with next keys above every key in use, is valid and holds that database. |
| Views.Store.Usernames | verified/mediater/serializers.py:38 | The usernames in use are exactly those of the stored users. |
| Views.Store.Register | verified/mediater/views.py:29-32 | A refused registration changes nothing and reports the validation error. A valid one whose e-mail is longer than the 150-character username column is refused by the database and changes nothing. Any other adds exactly the new user and the new pending seller at fresh keys and returns the seller key. |
| Views.Store.Create | verified/mediater/serializers.py:42-48 | An e-mail longer than the username column is refused and nothing changes. Otherwise exactly one user and one pending seller linked to it are added at fresh keys. The store stays valid either way. |
| Views.Store.SaveUser | verified/mediater/serializers.py:46 | A user that fits its columns is added at the next key and nothing else changes; the store stays valid. |
| Views.Store.SaveSeller | verified/mediater/serializers.py:47 | A seller profile that fits its columns is added at the next key and nothing else changes; the store stays valid. |
| Views.Store.Approve | verified/mediater/views.py:86-101 | Anonymous requesters get 401 and a missing seller gets 404, both changing nothing. Otherwise only the target's flag becomes true and the updated seller is returned. |
| Views.Store.Verify | verified/mediater/views.py:182-194 | Non-staff requesters get 401/403 and a missing seller gets 404, both changing nothing. Otherwise the action decides the flag and the answer is 200. |
| Views.Store.UpdateSeller | verified/mediater/views.py:86-92 | Anonymous requesters get 401, a missing seller 404 and an invalid form 400, all changing nothing. Otherwise the seller is replaced by the validated profile, which is returned. |
| Views.Store.SaveReplacedSeller | verified/mediater/views.py:86-92 | Only the one seller profile is replaced; the store stays valid. |
| Views.Store.SaveVerified | verified/mediater/views.py:96-97 | Only the target's flag changes; the store stays valid. |
| Views.Store.SaveProduct | verified/mediater/views.py:139 | Exactly one product that fits its columns is added at a fresh key; the store stays valid. |
| Views.Store.MayUpload | verified/mediater/views.py:128-135 | A requester may upload exactly when signed in and some verified seller profile links to its user. |
| Views.Store.UploadProduct | verified/mediater/views.py:124-140 | Anonymous requesters get 401. A user without a verified seller profile gets 403 and invalid input 400, with no product created. Otherwise exactly one product is added, owned by the requester's own profile. |
| Views.Store.PendingSellers | verified/mediater/views.py:59-64 | Signed-in users get the pending list and anonymous requesters 401. |
| Views.Store.VerifiedSellers | verified/mediater/views.py:71-80 | Anyone gets the verified sellers in the public representation. |
| Views.Store.PublicVerifiedSellers | verified/mediater/views.py:197-200 | Anyone gets the verified sellers' keys, each in its public representation. |
| Views.Store.UnnotifiedSellers | verified/mediater/views.py:107-112 | Signed-in users get the sellers not yet notified and anonymous requesters 401. |
| Views.Store.AllSellers | verified/mediater/views.py:174-180 | The full seller table is returned exactly to staff users; everyone else is refused. |
| Views.Store.SellerByBusiness | verified/mediater/views.py:222-231 | Anyone gets the full record of the sole verified seller matching the name, 404 when none matches, and the multiple-match error otherwise. |
| Views.Store.SellerLoginView | verified/mediater/views.py:42-53 | The endpoint succeeds exactly when the seller login does and returns the stored profile of the seller that logged in. |
| Views.Store.AdminLoginView | verified/mediater/views.py:208-216 | The endpoint succeeds exactly when the admin login does and returns the key and username of the user the admin login authenticated, who has an admin profile. |

## Left out

- The `home` view, the URL table (`urls.py`) and the database connection script (`test_pg.py`) are not part of this model. They are routing and I/O.
- Response messages and the JSON layout of responses are left out. Outcomes are modelled as success values and the failures 400, 401, 403, 404 and the unhandled multiple-match error (500).
- Password hashing and Django's `authenticate` are an opaque predicate on (username, password). Inactive users are not modelled apart from it.
- E-mail syntax (`EmailField`) is an opaque predicate `isEmail`.
- JWT minting after admin login (serializers.py:125-128) is left out because it comes from a token library. The admin login endpoint returns the user's key and username, not the token.
- Image storage and Pillow's image validation are left out. An image is the uploaded file's name; the `products/` prefix the storage adds, and its renaming of a stored file to fit the column, are not modelled.
- `created_at` timestamps are left out because they come from the clock.
- Database concurrency, transactions and last-writer-wins races are left out. Calls are sequential.
- Django's `normalize_email` and the NFKC normalisation of usernames in `create_user` are left out. Usernames and e-mails are stored as given after trimming.
- Text.SameUpToCase: case-insensitive matching (`iexact`) folds ASCII letters only, not full Unicode case folding.
- Requests are already-decoded values. JSON type coercion is not modelled; a price arrives as an integer count of cents, not a decimal string. A flag left out of a full seller update keeps its stored value, as it does for JSON; in a multipart form the framework would read it as false.
- The first `AdminLoginView` (views.py:146-161) is left out because the second definition (views.py:208) rebinds the name. The project settings are not shown, so the second one and `SellerDetailByBusinessView` are taken to allow any requester. For the same reason an anonymous requester refused by a permission class is taken to get 401, which holds when the first authentication class sends a `WWW-Authenticate` header (as JWT authentication does); with session authentication first it would be 403.
- The `SellerSerializer`, `BuyerSerializer` and `ReviewSerializer` representations (every model field) are not modelled separately. Handlers return the whole record.
- The `__str__` of seller, product and admin profile return a single field and are not modelled separately.
- Views.LookupByBusiness: when several verified sellers match, the source raises an unhandled exception (a 500). The model reports a distinct error value and does not pick a seller.
- Serializers.CleanChar: reports one error per field, the first failing check in Django REST framework's validator order. The framework itself lists every failing validator of a field.
- Approve admits any signed-in user, including a seller approving its own profile (views.py:88).
- Verify and the full seller list check the user's staff flag, not an admin profile (views.py:174-183).
- A review rating is any value from 0 to 32767, the range of a positive small integer column (models.py:55). No smaller range is enforced.
