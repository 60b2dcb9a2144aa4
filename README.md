# Donation and account core of a foundation's donation site, in Dafny

The site takes two kinds of donation:

- **Clothes donations.** The user supplies a list of items, each with an optional photo, plus a pickup address and a pickup date.
- **Fund donations.** Payment goes through Razorpay. The server first creates an order. After checkout it verifies the payment's signature and status, and only then records the donation.

Users register, log in and replace their profile photo. That photo is kept in a media store (Cloudinary).

This project models that core and proves properties of the model. It has one module per source file:

- `DonationSchema` (`donation_schema.dfy`) models the Mongoose donation schema:
  - validity as a predicate;
  - the `status` and `createdAt` defaults;
  - `save()` twice: `Persist` with the rules as declared, and `PersistAsWritten` as Mongoose runs them, which the routes use.
- `DonationRoutes` (`donation_routes.dfy`) models the four donation routes:
  - `DonationService` is a class that holds the donation collection as a `seq`;
  - `Gateway` is a class that logs every order created and every payment fetched, so "the gateway was not called" can be stated;
  - the route helpers are functions: the photo merge, amount validation, paise rounding, the signed string, and the history filter and sort.
- `DonateForm` (`donate_form.dfy`) models the donation page:
  - the item-list edits, with the rule that Remove is not offered on the first item;
  - the multipart payload loop of a clothes submission, as a method;
  - the fund amount check and the verification payload.
- `ClothesPipeline` (`clothes_pipeline.dfy`) follows a clothes submission from the page's payload to the server's merge. This is where the first finding below is shown, and where the corrected pairing is proved.
- `AuthRoutes` (`auth_routes.dfy`) models the register, login, profile-photo and profile routes:
  - they run on `UserStore`, which holds a user map keyed by email, an `_id` index, and the set of ids the media store holds;
  - `Valid()` ties the user map and the index together;
  - every handler keeps `Valid()`.
  - `UploadProfilePhoto` follows the route as written. `UploadProfilePhotoSavingFirst` is the corrected order of the third finding below: it destroys the old photo only after the save.
- `ProfilePage` (`profile_page.dfy`) models the profile page:
  - the check a picked photo must pass;
  - the upload that replaces the photo shown, as a class with the page's state fields.

`Common` (`common.dfy`) holds the shared value types. These are `Option`, `Result` and a `Response` (a status code with a body or a message). They also include a JavaScript-truthiness predicate on optional strings and JavaScript's `a || b` on them.

External services are parameters:

- HMAC-SHA256 is `hmacHex`.
- `jwt.sign` is `sign`.
- `comparePassword` is `passwordMatches`.
- The gateway's answers are `createOutcome` and `paymentStatus`.
- Upload storage is `store`.
- The clock is `now`.
- A thrown database or media-store failure is a boolean argument per call (`saveFails`, `destroyFails`, `cleanupFails`).

## Model

| member | source | states |
|---|---|---|
| DonationSchema.KindOf | backend/models/Donation.js:9-13 | every tag of the `donationType` enum names exactly one kind, and that kind's tag is the tag |
| DonationSchema.StatusOf | backend/models/Donation.js:47-51 | every tag of the `status` enum names one status, and that status's tag is the tag |
| DonationSchema.WithDefaults | backend/models/Donation.js:47-55 | a missing status becomes "pending" and a missing `createdAt` becomes now; given values are kept and no other field changes |
| DonationSchema.Persist | backend/models/Donation.js:3-56 | a save succeeds exactly when the draft with defaults is valid; the result lists each rejection (no user, bad or missing type, status outside the enum, clothes without address or date, fund without amount or payment id); a stored document is well formed and carries the draft's fields, the given `_id` and the default status and time |
| DonationSchema.PersistAsWritten | backend/models/Donation.js:3-56 | a save as Mongoose runs it succeeds exactly when the draft with defaults passes the checks without the item paths; it lists the same rejections, and a stored document carries the draft's fields, the given `_id`, the default status and time, and holds the kind's required fields |
| DonationSchema.PersistAgreesWithAsWritten | backend/models/Donation.js:15-23 | whenever the declared rules accept a draft, Mongoose stores the same document; on every draft that is not a clothes donation the two saves agree |
| DonationSchema.AsWrittenAcceptsItemWithoutType | backend/models/Donation.js:15-23 | under the item validators as Mongoose runs them, a clothes donation whose item has no type and no quantity passes, while the intended rule rejects it |
| DonationSchema.AsWrittenDiffersOnlyOnClothesItems | backend/models/Donation.js:15-23 | the intended rule is stricter than the as-written one, and the two agree on every donation that is not a clothes donation |
| DonationRoutes.AttachPhotos | backend/routes/donationRoutes.js:21-27 | every item keeps its fields and order; item i gets a reference to file i (its `filename` and `path`) when there is such a file, and no photo otherwise |
| DonationRoutes.ValidateAmount | backend/routes/donationRoutes.js:47-51 | an amount is accepted exactly when it is a number of at least 1; missing, zero and NaN are rejected |
| DonationRoutes.ToPaise | backend/routes/donationRoutes.js:53 | the paise amount is the rupee amount times 100, rounded half up: within half a paisa, and at least 100 for an accepted amount |
| DonationRoutes.OrderOptionsFor | backend/routes/donationRoutes.js:55-62 | the order asks for the rounded paise amount (at least 100) in INR, with receipt `receipt_<now>` and the user's id as note |
| DonationRoutes.DecimalStringInjective | backend/routes/donationRoutes.js:58 | two numbers with the same decimal string are equal |
| DonationRoutes.ReceiptsDistinguishTimes | backend/routes/donationRoutes.js:58 | two orders get the same receipt exactly when they are made in the same millisecond, whoever asks and for whatever amount |
| DonationRoutes.Gateway.CreateOrder | backend/routes/donationRoutes.js:64 | one more order is logged; the result is the order the gateway creates for those options (its id, amount and currency), or the gateway's error |
| DonationRoutes.Gateway.FetchPayment | backend/routes/donationRoutes.js:109 | one more fetch is logged; the result is the gateway's status for that payment id, or its error |
| DonationRoutes.SignedMessageSplit | backend/routes/donationRoutes.js:98 | the signed string is the order id, then `\|`, then the payment id, each recoverable by position |
| DonationRoutes.SignedMessageInjective | backend/routes/donationRoutes.js:98-104 | for order ids without `\|`, equal signed strings mean equal order ids and equal payment ids, so a signature binds both |
| DonationRoutes.Owned | backend/routes/donationRoutes.js:143 | the filter keeps every donation of the user as many times as it occurs, and no other donation |
| DonationRoutes.InsertNewestKeeps | backend/routes/donationRoutes.js:143 | inserting a donation adds exactly that donation and keeps every other one |
| DonationRoutes.InsertNewestOrdered | backend/routes/donationRoutes.js:143 | inserting into a newest-first list gives a newest-first list whose head is the new donation or the old head |
| DonationRoutes.SortNewestFirst | backend/routes/donationRoutes.js:143 | the sort by `createdAt` descending is ordered newest first and is a permutation of its input |
| DonationRoutes.DonationService.Save | backend/routes/donationRoutes.js:118-127 | a save stores the `PersistAsWritten` result under the next position, appends it only when it passes, and keeps the collection valid |
| DonationRoutes.DonationService.SubmitClothes | backend/routes/donationRoutes.js:10-42 | unparsable items give 400 and a non-array gives 500; otherwise success (201) comes exactly when address and date are given, whatever the items hold (an item without type or quantity is stored too); the stored donation has the merged items, "pending" status and the current time; a failure stores nothing |
| DonationRoutes.DonationService.CreateFundOrder | backend/routes/donationRoutes.js:45-84 | an invalid amount gives 400 and makes no gateway call; otherwise exactly one order is created with the computed options, and the reply is the gateway's order as it returned it, or 401 (gateway authentication) or 500; no donation is stored and no payment is fetched |
| DonationRoutes.DonationService.VerifyFund | backend/routes/donationRoutes.js:87-138 | the checks run in order (presence, then signature, then gateway status); a missing field or a bad signature returns before any gateway call; a non-numeric amount passes presence (it is a truthy string) and then, once the payment is captured, gets 500 because the save's Number cast fails; success comes exactly when all three checks pass and the amount is a number, and it stores one completed fund donation with amount in rupees (minor units / 100) and the payment id; every failure stores nothing |
| DonationRoutes.DonationService.AmountIsNotSigned | backend/routes/donationRoutes.js:91-121 | the signature covers only the two ids: a request that passes presence and signature passes them with any other non-zero amount, and the record then takes that amount divided by 100 |
| DonationRoutes.DonationService.MyDonations | backend/routes/donationRoutes.js:141-148 | the reply is 200, newest first, a permutation of the user's donations, and contains a donation exactly when it is stored and belongs to the user |
| DonateForm.ChangeItem | frontend/src/components/Donate.js:21-25 | the named field of the named item takes the value; its other fields, its photo and every other item are unchanged |
| DonateForm.ChangePhoto | frontend/src/components/Donate.js:27-32 | only that item's photo changes |
| DonateForm.AddItem | frontend/src/components/Donate.js:34-39 | one blank item is appended; the existing items are unchanged |
| DonateForm.RemoveItem | frontend/src/components/Donate.js:41-44 | an index in range removes exactly that item and keeps the others in order; an index out of range changes nothing |
| DonateForm.FormNeverEmpty | frontend/src/components/Donate.js:226-234 | since Remove is offered only after the first item, no sequence of form actions empties the item list |
| DonateForm.PhotoIndices | frontend/src/components/Donate.js:64-68 | the photo-bearing positions, strictly increasing, and every photo-bearing position is among them |
| DonateForm.PhotosAtIndices | frontend/src/components/Donate.js:64-68 | the k-th photo sent is the photo of the k-th photo-bearing item |
| DonateForm.BuildClothesPayload | frontend/src/components/Donate.js:55-68 | the payload is address, date, every item without its photo, then one `photos` part per photo-bearing item in item order |
| DonateForm.SubmitFund | frontend/src/components/Donate.js:95-99 | NaN or an amount below 1 shows the error and sends no request; a request carries the parsed amount, and the server's amount check accepts it |
| DonateForm.VerifyPayload | frontend/src/components/Donate.js:124-131 | the verify body carries the checkout's ids and signature and the order's minor-unit amount; with non-empty values it passes the server's presence check |
| DonateForm.StoredAmountNearRequested | frontend/src/components/Donate.js:105-130 | when the page sends back the amount of the order it requested, that amount divided by 100 is within half a paisa of the rupees entered; the server does not check this itself |
| ClothesPipeline.KthPhotoLandsOnItemK | backend/routes/donationRoutes.js:21-27 | with the page's payload, item k receives the photo of the k-th photo-bearing item, and items after the last photo receive none |
| ClothesPipeline.PhotosShiftOntoEarlierItems | frontend/src/components/Donate.js:59-68 | an item without a photo followed by one with a photo: the first receives the second's photo and the second receives none |
| ClothesPipeline.AttachFlaggedPhotos | backend/routes/donationRoutes.js:21-27 | the corrected merge keeps every item's fields and gives no photo to an item that has none |
| ClothesPipeline.FlaggedPipelineKeepsPhotos | backend/routes/donationRoutes.js:21-27 | with the corrected pairing every item is stored with exactly its own photo |
| AuthRoutes.NewPhoto | backend/routes/auth.js:95-98 | the new photo's id is the file's `public_id` if truthy, else its `filename`; its url is the file's `path` if truthy, else its `secure_url` |
| AuthRoutes.ToObject | backend/routes/auth.js:105 | the plain object of a user holds its `_id`, email, password and, when set, its profile photo |
| AuthRoutes.WithoutPassword | backend/routes/auth.js:106 | removes `password` and keeps every other key and its value |
| AuthRoutes.PublicView | backend/routes/auth.js:134 | a user's view has no password and every other field of the user |
| AuthRoutes.LoginOutcome | backend/routes/auth.js:45-61 | login yields the token of the user's id exactly when the email is known and the password matches; an unknown email and a wrong password get the same 400 "Invalid credentials" |
| AuthRoutes.LoginAfterRegister | backend/routes/auth.js:9-61 | after a user is added, logging in with its email checks the registered password and yields the new user's token; other emails log in as before |
| AuthRoutes.UserStore.FindById | backend/routes/auth.js:77 | a lookup by `_id` finds a user exactly when the index holds the id, and it is the stored user with that id |
| AuthRoutes.UserStore.Destroy | backend/routes/auth.js:88-92 | a destroy removes the id from the media store, or changes nothing when the call fails |
| AuthRoutes.UserStore.Register | backend/routes/auth.js:9-38 | an existing email gives 400 and changes nothing; otherwise exactly one user is added under the email and the new id, and the reply is 201 with that id's token; a failed save gives 500 and changes nothing |
| AuthRoutes.UserStore.Login | backend/routes/auth.js:41-66 | the reply is the login outcome over the current users, and nothing changes |
| AuthRoutes.UserStore.UploadProfilePhoto | backend/routes/auth.js:69-129 | no file gives 400 and changes nothing; an unknown user gives 404 after the upload is destroyed, or 500 when that destroy fails (the catch block then tries it again); otherwise the old photo id is destroyed (a failure there is swallowed) and the user gets the new photo, with the reply holding the user without password and the photo, and the new upload stays in the store; a failed save destroys the new upload (unless that fails too) and gives 500 with the user unchanged, so after a successful destroy of the old photo the user names an id the store no longer holds |
| AuthRoutes.UserStore.UploadProfilePhotoSavingFirst | backend/routes/auth.js:86-122 | the corrected order, with the old photo destroyed only after the save: every branch gives the same reply as the route; a failed save leaves the old photo in the store; and a user whose photo was in the store still has a photo in the store afterwards, provided the new upload's id differs from the old one |
| AuthRoutes.DanglingAfterFailedSave | backend/routes/auth.js:86-122 | a user with photo "old" in the store uploads "new" and the save fails: the user's photo was held before and is no longer held after |
| AuthRoutes.UserStore.Profile | backend/routes/auth.js:132-143 | an unknown id gives 404; otherwise the reply is 200 with the user's view, which has no password |
| ProfilePage.PhotoError | frontend/src/components/Profile.js:58-69 | a file is accepted exactly when its type is jpeg, png or jpg and its size is at most 5 MB; the type error wins over the size error |
| ProfilePage.ReplyOf | frontend/src/components/Profile.js:86-105 | the page's success branch (a reply with a user and a photo) is taken exactly when the server succeeds, and then with the photo the server stored; a failure is a rejection whose message is truthy exactly when the server's message is not empty |
| ProfilePage.SetProfilePhoto | frontend/src/components/Profile.js:96-99 | the new profile has the photo under `profilePhoto` and every other field of the previous profile (none when there was none) |
| ProfilePage.ShownProfileMatchesStoredUser | frontend/src/components/Profile.js:95-99 | updating the server's profile with the reply's photo gives the server's view of the updated user |
| ProfilePage.UploadedPhotoIsShown | backend/routes/auth.js:105-112 | the reply of a successful `PUT /profile-photo` takes the page's success branch with the stored photo, and the profile the page then shows is the server's view of the updated user |
| ProfilePage.FailedUploadShowsServerMessage | frontend/src/components/Profile.js:103-105 | a failed upload is a rejection, and the page shows the server's message, or the default text when that message is empty |
| ProfilePage.ProfilePage.HandlePhotoChange | frontend/src/components/Profile.js:55-74 | no file changes nothing; a rejected file sets the error and keeps the selection; an accepted file becomes the selection and clears the error |
| ProfilePage.ProfilePage.HandlePhotoUpload | frontend/src/components/Profile.js:76-109 | without a selection nothing changes; a reply with user and photo replaces the shown photo and clears the selection and the error; a rejection shows the server's message, or the default text without one; loading ends false |

## Left out

- ToPaise: amounts are exact reals, not IEEE-754 doubles, in `ToPaise`, `ValidateAmount` and `VerifyFund`. Near a half paisa the result can differ by one: the code computes `Math.round(1.005 * 100)` as 100 where the model gives 101. `amount / 100` is exact, and `Infinity` (which passes `isNaN`) has no counterpart.
- Cryptography. HMAC-SHA256, `jwt.sign` and bcrypt's `comparePassword` are uninterpreted functions. The model does not express the constant-time-comparison concern; the code uses `!==`.
- External services. The gateway's order may carry any amount and currency; the reply to `CreateFundOrder` passes them on. `StoredAmountNearRequested` assumes that the page sends back the amount it requested. The Razorpay SDK, Cloudinary and multer are modelled only by what they return. Multer's refusal of more than five files is the precondition of `SubmitClothes`.
- JSON encoding. `JSON.parse` and `JSON.stringify` of the items are treated as lossless. `ItemsField` distinguishes an array, another JSON value and a syntax error.
- Mongoose type casting. Casting `quantity` to a Number and `pickupDate` to a Date is not modelled. The fund `amount` is modelled as missing, not a number, or a number; a non-numeric one fails the cast in `VerifyFund`. The routes check no item path; only the schema, in `Persist` and `PersistAsWritten`, checks that the required strings are present. A cast failure would surface as the same 500 as a validation failure.
- Database faults. Failures of `find` and of `findOne` are out, and so are the 500 replies of the login, profile and history routes that they lead to. The `saveFails` argument stands for a failed `save()` in register and profile-photo only. In `SubmitClothes` and `VerifyFund`, `save()` fails only when the schema rejects the draft, never for a database reason.
- `Response`: a reply is its status code and its message or value. The replies leave out `error: error.message` (backend/routes/donationRoutes.js:40, 75, 81, 135), `status: payment.status` (backend/routes/donationRoutes.js:113) and `error` and `details: error.stack` (backend/routes/auth.js:125-126). The console logging is out too.
- Time and receipts. Timestamps are plain integers, and the receipt uses `now` as `Date.now()`.
- Identifiers. Donation `_id`s are positions in the collection. User `_id`s are given by the caller. Ordering donations with equal `createdAt` follows the insertion sort, while MongoDB leaves it unspecified.
- Page behaviour. Asynchrony, navigation, `localStorage`, the `!token` redirects, the checkout widget and the success messages are out.
- Other files. The UI-only components, `AuthContext.js`, `AppRoutes.js` and `backend/routes/userRoutes.js` are left out. `userRoutes.js` duplicates the profile-photo assignment.
- Duplicate payments. Replaying a verified payment is not rejected. `VerifyFund` stores a second record, because the code has no uniqueness check on the payment id.
- `FundDraft`: the route passes `orderId` to the record, but the schema has no path for it, so strict mode discards it. The model follows the code and does not store an order reference.
- `SubmitClothes`: the route saves through `PersistAsWritten`, so the item paths are not required, as in the code. `Persist` is the declared rule of the second finding; nothing stored by the routes is promised to meet it.
- `SubmitClothes`: `upload.array('photos', 5)` (backend/routes/donationRoutes.js:10) stores the photos before the handler runs. So the 400 for malformed items and every 500 leave those photos in the media store. The model cannot say this, because `files` arrive already stored and the route keeps no media set.
- `SubmitClothes`: an empty item list is accepted, because the code does not require at least one item.
- `SubmitClothes`: the server keeps the positional photo pairing as the code has it. The model proves the corrected, flagged pairing in `ClothesPipeline`, because that fix changes the payload on both sides.

## Findings

| source | as written | input that shows it | evidently intended | confidence | as-written member | corrected member |
|---|---|---|---|---|---|---|
| backend/routes/donationRoutes.js:21-27 | the page sends only the photos that exist (Donate.js lines 64-68), and the server gives file i to item i | two items, the first without a photo and the second with photo p: p is stored on the first item and the second has none | each item is stored with its own photo | high, not executed | ClothesPipeline.PhotosShiftOntoEarlierItems | ClothesPipeline.FlaggedPipelineKeepsPhotos |
| backend/models/Donation.js:16-23 | the item-level `required` functions read `this.donationType`, and `this` is the item sub-document, which has no such path, so type and quantity are never required | a clothes donation with one item `{}` passes validation | type and quantity are required on every item of a clothes donation | medium, not executed | DonationSchema.AsWrittenAcceptsItemWithoutType | DonationSchema.Persist |
| backend/routes/auth.js:86-122 | the old photo is destroyed before `user.save()`; when the save throws, the catch block destroys only the new upload and the user keeps its old `profilePhoto` | a user whose photo "old" is in the media store uploads "new", the destroy of "old" succeeds and the save fails | a failed update leaves the user with a photo the media store still holds | high, not executed | AuthRoutes.DanglingAfterFailedSave | AuthRoutes.UserStore.UploadProfilePhotoSavingFirst |
