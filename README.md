# B2B marketplace portal: a Dafny model of its core

This project models the core of a B2B marketplace. Buyers search products and
sellers, contact a seller to open a deal, and rate closed deals. Sellers run a
deal pipeline and keep their product catalogue, certifications and company
profile up to date. The system has two parts:

- a React portal with a buyer side and a seller side;
- a serverless backend function that reshapes CRM records (products, vendors,
  certifications and deals) into what the portal shows, and turns portal
  requests into CRM writes.

The backend's reshaping logic is modelled in pure functions and in methods
over explicit CRM answers: the product/vendor/certification joins, the search
dispatch, the deal payloads, the feedback arithmetic and the seller-update
conversions (`Backend.dfy`). Each portal page that keeps state is a class
whose fields are its React state and whose methods are its event handlers:

| file | page or component |
|---|---|
| `SellerDeals.dfy` | the seller's deal pipeline |
| `BuyerDeals.dfy` | the buyer's transactions and feedback dialog |
| `Certifications.dfy` | the seller's certifications |
| `UploadProducts.dfy` | the product upload form |
| `ManageProducts.dfy` | the product catalogue |
| `SellerProfile.dfy` | the seller profile |
| `ProductSearch.dfy` | the product search page |
| `SellerSearch.dfy` | the seller search page |
| `ChangePassword.dfy` | the change-password form |
| `OverlayToast.dfy` | the toast/overlay hook |

The purely computed parts are functions:

- the star widget (`StarRating.dfy`);
- the seller card (`SellerCard.dfy`);
- the filters, statistics, validators and strength meter inside the pages.

`Common.dfy` holds the JavaScript behaviour the model relies on:

- `trim` and blank tests;
- `split` on one character;
- `Number()` of a decimal string (`ParseNumber`);
- integer-to-string conversion;
- `padStart`;
- the `YYYY-MM-DD` date formatting the two search pages share.

Things that happen outside the code become parameters:

- server answers become an `Outcome` (success code, failure code, or a thrown request);
- CRM data becomes sequences of records (an empty CRM module, which the backend cannot read, is listed under "## Left out");
- the clock becomes `now`, `currentYear` and `daysUntilExpiry`;
- the random toast id becomes `freshId`.

Behaviour of the code that a reader may not expect is modelled as written and stated in lemmas:

- The product search page sends today's date as `initiatedDate`, but the
  backend reads only `closingDate`, so such a deal gets no closing date
  (`ProductSearch.ContactSeller`).
- The seller search page always adds a "Contact Request Sent" toast, even
  after a failed or thrown request (`SellerSearch.SentEvenOnFailure`).
- On the catalogue page, typing never clears a validation message: the
  inputs are named after product fields and the errors after short keys
  (`ManageProducts.NoFieldNamesAnErrorKey`).
- The buyer's "Active Deals" card reads the lower-case `stage` field, which
  fetched deals lack, so it shows 0 (`BuyerDeals.ActiveDealsOfFetched`).
- Toggling a tax slab that is already selected twice moves it to the end of
  the selection (`UploadProducts.ToggleTwice`).
- The seller card writes the location as `State,Country` while the backend
  writes `State, Country`; the two never agree
  (`SellerCard.CardLocationDiffersFromBackend`).
- Splitting the contact name on a space keeps only its first two words
  (`SellerProfile.ContactKeepsTwoWords`).
- On the product search page the certification selector is commented out,
  so only word, category and rating searches are issued; the model still
  routes any filter name, as `handleSearch` does (`ProductSearch.SearchTypesAccepted`).

## Model

| member | source | states |
|---|---|---|
| Backend.LastVendorWithIdFound | functions/b2b_backend_function/index.js:316-319 | the vendor map has an entry for an id exactly when some vendor has that id, and the entry carries that id |
| Backend.LaterVendorWins | functions/b2b_backend_function/index.js:316-319 | among vendors sharing an id, the map keeps the last one |
| Backend.BuildVendorMap | functions/b2b_backend_function/index.js:316-319 | the `forEach` loop builds a map whose lookup at every id is the last vendor with that id |
| Backend.CertNamesOfAppend | functions/b2b_backend_function/index.js:320-327 | grouping certification names keeps list order: the group of a concatenation is the concatenation of the groups |
| Backend.CertNamesOfMembers | functions/b2b_backend_function/index.js:320-327 | a name is in a vendor's group iff a certification of that vendor has it |
| Backend.CertNamesOfCount | functions/b2b_backend_function/index.js:320-327 | the group has one entry per matching certification (duplicates kept) |
| Backend.BuildCertMap | functions/b2b_backend_function/index.js:320-327 | the grouping loop maps a vendor id to its non-empty name group, and an id is absent exactly when the vendor has no certification |
| Backend.CertMapLookup | functions/b2b_backend_function/index.js:332 | the map lookup with `[]` as default is the vendor's group, `[]` when it has none |
| Backend.SellerLocation | functions/b2b_backend_function/index.js:337 | the state alone when the country is empty, else state, ", ", country |
| Backend.SellerLocationExamples | functions/b2b_backend_function/index.js:337 | NY/USA gives "NY, USA", NY/"" gives "NY", ""/USA gives ", USA" |
| Backend.EnrichOne | functions/b2b_backend_function/index.js:329-342 | the record keeps the product, takes seller id and name from the product's own vendor lookup, and takes location, rating and engagement score from the vendor (empty or absent for an unknown vendor) |
| Backend.EnrichProducts | functions/b2b_backend_function/index.js:316-342 | one record per product, in product order, each joined with the last vendor of its id and all certifications of that vendor |
| Backend.EnrichScenario | functions/b2b_backend_function/index.js:316-342 | two products of two vendors, one holding a certification, give two records of which exactly the first has one certificate |
| Backend.AttachCertifications | functions/b2b_backend_function/index.js:432-444 | each vendor unchanged, in list order, with its certification names or `[]` |
| Backend.SearchSellers | functions/b2b_backend_function/index.js:1156-1201 | word-search hits are each returned with their certifications; no hits end in a 500 |
| Backend.SearchSellerRating | functions/b2b_backend_function/index.js:1214-1260 | rating-search hits are each returned with their certifications; no hits give `[]` |
| Backend.VendorIdsOf | functions/b2b_backend_function/index.js:1320 | an id is in the set iff some matching certification points at it |
| Backend.FilterVendorsById | functions/b2b_backend_function/index.js:1327-1332 | the filter never returns more vendors than it was given |
| Backend.FilterVendorsByIdMembers | functions/b2b_backend_function/index.js:1327-1332 | exactly the listed vendors with an id in the set come out, each with all its certification names |
| Backend.FilterVendorsByIdAppend | functions/b2b_backend_function/index.js:1327-1332 | the filter keeps vendor-list order |
| Backend.SearchSellerCertification | functions/b2b_backend_function/index.js:1300-1336 | `[]` without matches; otherwise exactly the listed vendors holding a matching certification, each with all of its certifications |
| Backend.VendorProducts | functions/b2b_backend_function/index.js:1117-1142 | the products of one vendor are never more than all products |
| Backend.VendorProductsMembers | functions/b2b_backend_function/index.js:1117-1142 | exactly the products pointing at the vendor come out, each joined with that vendor |
| Backend.SearchRating | functions/b2b_backend_function/index.js:1098-1142 | no vendor found gives `[]`, an empty vendor array a 500, otherwise exactly the products of the first vendor found, one record per matching product (duplicates kept) |
| Backend.VendorProductsAppend | functions/b2b_backend_function/index.js:1117-1142 | the nested filter/map keeps product order |
| Backend.VendorProductsCount | functions/b2b_backend_function/index.js:1117-1142 | one record for each product pointing at the vendor, duplicates kept |
| Backend.SearchRatingKeepsOrder | functions/b2b_backend_function/index.js:1098-1142 | the rating search answers in product order |
| Backend.SearchQueryFor | functions/b2b_backend_function/index.js:988-994 | `category` becomes an equality criterion, `word` a word search, and every other type is refused |
| Backend.SearchProducts | functions/b2b_backend_function/index.js:988-1062 | an unknown type gives 400, no hits `[]`, otherwise one enriched record per hit in order |
| Backend.AccumulateRating | functions/b2b_backend_function/index.js:946-959 | the count goes up by one, the total by the rating, and the average times the count is the total |
| Backend.AccumulateRatingExample | functions/b2b_backend_function/index.js:946-959 | 4 ratings totalling 18 plus a 5 give 5, 23 and 4.6 |
| Backend.AverageStaysInRange | functions/b2b_backend_function/index.js:946-959 | with all ratings in 1..5 the average stays in 1..5 |
| Backend.FeedbackDeal | functions/b2b_backend_function/index.js:902-913 | the deal payload keeps id and comment, and its rating text reads back as the rating |
| Backend.PostDealPayload | functions/b2b_backend_function/index.js:700-723 | a new deal is at "Seller Contacted" with quantity 0, takes the closing date as sent, and links a product iff `productId` is truthy |
| Backend.DealUpdatePayload | functions/b2b_backend_function/index.js:745-766 | the update carries the stage if given, else the quantity if given, never both |
| Backend.SplitContact | functions/b2b_backend_function/index.js:194 | the first name never holds a space, and a last name exists iff the contact contains a space |
| Backend.YearsInBusiness | functions/b2b_backend_function/index.js:217-219 | the years in business plus the established year give the current year |
| SellerDeals.Rank | src/pages/seller/SellerTransactions.tsx:120-131 | the rank is at most 3, and is 3 exactly for stages other than the three open ones |
| SellerDeals.NextStages | src/pages/seller/SellerTransactions.tsx:120-131 | every offered stage is one of the five and strictly later than the current one |
| SellerDeals.CanUpdateIffHasNext | src/pages/seller/SellerTransactions.tsx:112-131 | a stage can be updated iff it offers a next stage; among the five stages, iff it is not closed |
| SellerDeals.NextStagesTable | src/pages/seller/SellerTransactions.tsx:120-131 | the transition table: Seller Contacted to Negotiating Terms; Negotiating Terms to Agreement Reached, Closed Won or Closed Lost; Agreement Reached to either closed stage; closed stages to nothing |
| SellerDeals.ChainsReachClosed | src/pages/seller/SellerTransactions.tsx:120-131 | every chain of offered moves has at most 3 - rank steps, and one that cannot continue ends in a closed stage |
| SellerDeals.WithStage | src/pages/seller/SellerTransactions.tsx:174-180 | the stage filter never returns more deals than it was given |
| SellerDeals.WithStageMembers | src/pages/seller/SellerTransactions.tsx:174-180 | the stage filter keeps exactly the deals whose Stage equals the filter |
| SellerDeals.WithStageAppend | src/pages/seller/SellerTransactions.tsx:174-180 | the stage filter keeps the original order |
| SellerDeals.FilteredDeals | src/pages/seller/SellerTransactions.tsx:174-180 | `[]` for a non-array, all deals for "all", otherwise exactly the deals of that stage |
| SellerDeals.RoundedPercent | src/pages/seller/SellerTransactions.tsx:201-208 | the nearest whole percent of won over total, halves up, in 0..100 |
| SellerDeals.RoundedPercentExamples | src/pages/seller/SellerTransactions.tsx:201-208 | 1/3 gives 33, 2/3 gives 67, 1/8 gives 13, 0/5 gives 0, 4/4 gives 100 |
| SellerDeals.ComputeStats | src/pages/seller/SellerTransactions.tsx:186-208 | total is the list length, won counts Closed Won, contacted counts Seller Contacted, negotiation counts Negotiating Terms plus Agreement Reached, lost counts Closed Lost, and the win rate is 0 without deals and the rounded percentage otherwise |
| SellerDeals.StageCountsCover | src/pages/seller/SellerTransactions.tsx:186-200 | the four stage cards never exceed the total, and equal it iff every deal is in one of the five stages |
| SellerDeals.FindDeal | src/pages/seller/SellerTransactions.tsx:261 | the deal found is in the list with that id, and none is found only when no deal has it |
| SellerDeals.OriginalQuantity | src/pages/seller/SellerTransactions.tsx:259-264 | the restored quantity is the shown deal's fetched quantity, or blank when it is not shown or its quantity is 0 |
| SellerDeals.SellerDealsPage.SyncQuantities | src/pages/seller/SellerTransactions.tsx:212-219 | the quantity dictionary holds, at every id, the last fetched deal's quantity, and is empty without deals |
| SellerDeals.QuantityEntryIsLast | src/pages/seller/SellerTransactions.tsx:212-219 | the dictionary built by `Object.fromEntries` has an entry for an id iff some deal has it, and the entry is the quantity of the last such deal |
| SellerDeals.SellerDealsPage.Load | src/pages/seller/SellerTransactions.tsx:49-66 | the fetched deals are stored and the quantity dictionary refilled from them |
| SellerDeals.SellerDealsPage.SetFilter | src/pages/seller/SellerTransactions.tsx:370 | only the filter changes |
| SellerDeals.SellerDealsPage.StartEdit | src/pages/seller/SellerTransactions.tsx:490-493 | editing starts only on a deal whose stage can be updated |
| SellerDeals.SellerDealsPage.QuantityChange | src/pages/seller/SellerTransactions.tsx:221-226 | a value is stored only when it parses to at least 1, and only under that deal's id |
| SellerDeals.SellerDealsPage.Save | src/pages/seller/SellerTransactions.tsx:228-257 | the request carries that deal's dictionary quantity, and editing closes |
| SellerDeals.SellerDealsPage.Cancel | src/pages/seller/SellerTransactions.tsx:259-264 | only that deal's entry is reset, to its original quantity, and editing closes |
| SellerDeals.SellerDealsPage.StageUpdate | src/pages/seller/SellerTransactions.tsx:133-170 | the request carries the new stage; on success only the deals with that id gain the lower-case `stage`, keeping list order, and the quantity dictionary is refilled with the last quantity of each id (lines 49-66); otherwise deals and quantities are unchanged |
| BuyerDeals.FeedbackComplementsStageUpdate | src/pages/Transactions.tsx:92-94 | feedback is offered exactly for the two closed stages, which are exactly the stages the seller can no longer update |
| BuyerDeals.WonDeals | src/pages/Transactions.tsx:206 | "Won Deals" counts exactly the deals whose Stage is Closed Won, the same count as the seller's statistics |
| BuyerDeals.ActiveDeals | src/pages/Transactions.tsx:184-190 | the active count never exceeds the number of deals |
| BuyerDeals.ActiveDealsOfFetched | src/pages/Transactions.tsx:184-190 | deals without a lower-case `stage` are never counted as active |
| BuyerDeals.ActiveDealsMissesOpenDeal | src/pages/Transactions.tsx:184-190 | a fetched deal at Seller Contacted counts for the seller's statistics but not as active |
| BuyerDeals.FeedbackDialog.OpenChange | src/pages/Transactions.tsx:323-330 | the dialog opens or closes only on a deal that accepts feedback |
| BuyerDeals.FeedbackDialog.EditComment | src/pages/Transactions.tsx:362 | only the comment changes |
| BuyerDeals.FeedbackDialog.ClickStar | src/pages/Transactions.tsx:348-351 | clicking star k sets the rating to k |
| BuyerDeals.FeedbackDialog.Submit | src/pages/Transactions.tsx:96-139 | a blank comment or a zero rating sends nothing and changes nothing; otherwise the feedback is sent with a rating in 1..5 and the dialog is reset whatever the answer |
| StarRating.Stars | src/components/common/StarRating.tsx:15-31 | exactly `maxRating` stars, star k filled iff k is at most the rating |
| StarRating.FilledIsPrefix | src/components/common/StarRating.tsx:29-31 | filled stars form a prefix of the row |
| StarRating.CountFilled | src/components/common/StarRating.tsx:29-31 | the filled count never exceeds the number of stars |
| StarRating.StarsGrow | src/components/common/StarRating.tsx:29-31 | a row with one more star is the shorter row plus the new star's fill state |
| StarRating.FilledCountOfWholeRating | src/components/common/StarRating.tsx:29-31 | a whole rating fills exactly the rating clamped to 0..maxRating |
| StarRating.ClickValue | src/components/common/StarRating.tsx:43 | only interactive stars report a click, and star k reports k, within 1..maxRating |
| StarRating.ClickThenShow | src/components/common/StarRating.tsx:29-43 | after clicking star k the default row fills exactly k stars |
| ChangePassword.ChangePasswordForm.Validate | src/pages/ChangePassword.tsx:35-62 | the stored record is the error record of the form's fields and the fields are unchanged; valid iff the record is empty iff the form is accepted (a current password, a new one of 8 or more well-composed characters differing from it, a matching confirmation) |
| ChangePassword.FormErrorsKeys | src/pages/ChangePassword.tsx:38-58 | each field's error appears iff its check fails, with the message of the first failing check and "must be different" overriding the new-password message |
| ChangePassword.FormErrorsEmpty | src/pages/ChangePassword.tsx:35-61 | the error record is empty exactly when the form is accepted, in both directions |
| ChangePassword.ChangePasswordForm.InputChange | src/pages/ChangePassword.tsx:23-29 | only the typed field changes, and its message is blanked only if it has one |
| ChangePassword.ChangePasswordForm.Submit | src/pages/ChangePassword.tsx:64-83 | the fields are cleared (record empty) exactly when the old fields are accepted; otherwise the fields are kept and the record shown is the one for the old fields |
| ChangePassword.Strength | src/pages/ChangePassword.tsx:86-97 | 0 for the empty password, otherwise 1..5, and 5 exactly when all five checks pass |
| ChangePassword.StrengthText | src/pages/ChangePassword.tsx:99-105 | the label is empty only for the empty password, otherwise the label of its strength |
| ChangePassword.AcceptedIsGood | src/pages/ChangePassword.tsx:44-47 | a password the validation accepts scores at least 4, "Good" or "Strong" |
| ChangePassword.StrengthExamples | src/pages/ChangePassword.tsx:86-105 | "a" is Very Weak (1) and "Passw0rd" is Good (4) |
| Certifications.BeforeIrreflexive | src/pages/seller/MyCertifications.tsx:122-128 | no date is before itself |
| Certifications.BeforeTotal | src/pages/seller/MyCertifications.tsx:122-128 | of two different dates exactly one is before the other |
| Certifications.BeforeIsValueOrder | src/pages/seller/MyCertifications.tsx:122-128 | for digit strings of one length the character order is the numeric order, and equal texts are equal numbers |
| Certifications.BeforeIsDateOrder | src/pages/seller/MyCertifications.tsx:122-128 | on `YYYY-MM-DD` dates the compared relation is chronological order: by year, then month, then day, the order of the `Date` comparison at line 125 |
| Certifications.GetStatus | src/pages/seller/MyCertifications.tsx:134-144 | Expired iff fewer than 0 days, Expiring Soon iff 0..90 days, Valid iff more than 90 days |
| Certifications.NewCertIdDigits | src/pages/seller/MyCertifications.tsx:152 | the new id is "C" followed by decimal digits, zero-padded to three, that read back as count + 1; exactly four characters while count + 1 < 1000 |
| Certifications.CertificationsPage.Commit | src/pages/seller/MyCertifications.tsx:151-214 | the success path of adding: the new record goes first, the request carries the form, and the form is reset and the dialog closed |
| Certifications.NewCertIdInjective | src/pages/seller/MyCertifications.tsx:152 | lists of different lengths give different new ids |
| Certifications.RequestOf | src/pages/seller/MyCertifications.tsx:180-187 | the request carries the five form fields |
| Certifications.EqualDatesOutOfOrder | src/pages/seller/MyCertifications.tsx:122-128 | equal issue and expiry dates are refused |
| Certifications.CertificationsPage.Load | src/pages/seller/MyCertifications.tsx:63-75 | the fetched list replaces the old one |
| Certifications.CertificationsPage.OpenAdd | src/pages/seller/MyCertifications.tsx:800 | only the add dialog opens |
| Certifications.CertificationsPage.InputChange | src/pages/seller/MyCertifications.tsx:92-97 | only the typed field changes, and its message is blanked only if it has one |
| Certifications.FormErrorsKeys | src/pages/seller/MyCertifications.tsx:100-129 | each field's key is in the error record iff its check fails; the expiry key carries the date-order message when the dates are out of order and "required" otherwise |
| Certifications.FormErrorsEmpty | src/pages/seller/MyCertifications.tsx:100-131 | the record is empty iff every check passes, and then the issue date is before the expiry date |
| Certifications.CheckForm | src/pages/seller/MyCertifications.tsx:100-129 | the checks, run in source order, build exactly the record the form's errors are defined by |
| Certifications.WithNew | src/pages/seller/MyCertifications.tsx:151-162 | the new record, with the given id, blank CRM fields and the form's fields, goes in front of the unchanged list |
| Certifications.DeleteUndoesAdd | src/pages/seller/MyCertifications.tsx:162-278 | deleting the record just added gives back the list, when no earlier record had its id |
| Certifications.CertificationsPage.Validate | src/pages/seller/MyCertifications.tsx:102-131 | an error key appears iff that field is blank or empty, or for the expiry date when the dates are out of order; valid iff no error, which implies the issue date is before the expiry date |
| Certifications.CertificationsPage.ResetForm | src/pages/seller/MyCertifications.tsx:314-325 | form and errors are emptied |
| Certifications.CertificationsPage.CancelAdd | src/pages/seller/MyCertifications.tsx:503-511 | the add dialog's Cancel closes the dialog and empties the form and errors; the list and the editing state are unchanged |
| Certifications.CertificationsPage.CancelEdit | src/pages/seller/MyCertifications.tsx:758-767 | the edit dialog's Cancel ends editing and empties the form and errors; the list and the add dialog are unchanged |
| Certifications.CertificationsPage.Add | src/pages/seller/MyCertifications.tsx:146-216 | a request is sent exactly when the old form's error record is empty (all fields filled and the dates in order); then the new certificate, with the next id, is put first and the form is reset; otherwise the list, form and dialog are unchanged and that record is shown |
| Certifications.CertificationsPage.EditClick | src/pages/seller/MyCertifications.tsx:301-312 | the form is filled from the certificate's CRM fields and the errors are cleared |
| Certifications.CertificationsPage.Update | src/pages/seller/MyCertifications.tsx:218-266 | a request is sent exactly when a certificate is being edited and the old form's error record is empty; otherwise the list, form and editing state are unchanged and that record is shown; on success only the records with the edited id change and the others keep their order; on failure the list is unchanged |
| Certifications.CertificationsPage.Delete | src/pages/seller/MyCertifications.tsx:268-299 | on success exactly the certificates with that id go; on failure the list is unchanged |
| UploadProducts.RemoveAll | src/pages/seller/UploadProducts.tsx:69-76 | the slab filter never lengthens the list |
| UploadProducts.RemoveAllMembers | src/pages/seller/UploadProducts.tsx:69-76 | removing a slab drops every occurrence of it and keeps the others |
| UploadProducts.RemoveAllAbsent | src/pages/seller/UploadProducts.tsx:69-76 | removing an absent slab leaves the list unchanged |
| UploadProducts.RemoveAllAppend | src/pages/seller/UploadProducts.tsx:69-76 | removal keeps order across a concatenation |
| UploadProducts.RemoveAllMultiset | src/pages/seller/UploadProducts.tsx:69-76 | in a list without duplicates, removal drops exactly one copy |
| UploadProducts.ToggleTax | src/pages/seller/UploadProducts.tsx:69-76 | the slab's membership flips and no other slab's membership changes |
| UploadProducts.ToggleKeepsNoDuplicates | src/pages/seller/UploadProducts.tsx:69-76 | toggling never introduces a duplicate |
| UploadProducts.RemoveAllNoDuplicates | src/pages/seller/UploadProducts.tsx:69-76 | removal never introduces a duplicate |
| UploadProducts.ToggleTwice | src/pages/seller/UploadProducts.tsx:69-76 | toggling an unselected slab twice restores the list; toggling a selected one twice keeps the same selection with that slab moved to the end |
| UploadProducts.ErrorKeyOf | src/pages/seller/UploadProducts.tsx:46-52 | the price and code inputs have no error of their own name |
| UploadProducts.CheckText | src/pages/seller/UploadProducts.tsx:93-107 | the name, description and category checks add exactly their "required" messages |
| UploadProducts.FormErrorsKeys | src/pages/seller/UploadProducts.tsx:90-145 | each key is in the error record iff its check fails, with the last failing check's message for the price range and quantity |
| UploadProducts.FormErrorsEmpty | src/pages/seller/UploadProducts.tsx:90-147 | the record is empty iff every check passes |
| UploadProducts.CheckPriceRange | src/pages/seller/UploadProducts.tsx:109-127 | the `priceRange` message is set iff some of the five checks fails, to the last failing check's message |
| UploadProducts.CheckQuantity | src/pages/seller/UploadProducts.tsx:129-142 | blank gives "required", a value not parsing to a positive number gives "valid positive number" |
| UploadProducts.UploadForm.InputChange | src/pages/seller/UploadProducts.tsx:46-52 | the field is stored and only its own message is blanked, only if it has one |
| UploadProducts.UploadForm.ToggleSlab | src/pages/seller/UploadProducts.tsx:69-76 | only the tax list changes, by the toggle |
| UploadProducts.UploadForm.Validate | src/pages/seller/UploadProducts.tsx:90-145 | each error key appears iff its check fails, with the messages in source order; valid iff no error |
| UploadProducts.UploadForm.Submit | src/pages/seller/UploadProducts.tsx:147-224 | a request is sent exactly when the old form's error record is empty; otherwise nothing is sent, the form is kept and that record is shown; a sent form has a tax slab and a positive quantity, and the form is emptied whatever the answer |
| UploadProducts.UploadForm.Reset | src/pages/seller/UploadProducts.tsx:226-241 | form and errors are emptied |
| UploadProducts.EmptyTaxMessageWins | src/pages/seller/UploadProducts.tsx:109-127 | an empty tax list always ends with "Select at least one tax slab." |
| ManageProducts.KeyNamed | src/pages/seller/ManageProducts.tsx:105 | the lookup by name finds the key spelled that way, or none when no key is |
| ManageProducts.NoFieldNamesAnErrorKey | src/pages/seller/ManageProducts.tsx:103-135 | no input name is an error key, so typing never clears an error |
| ManageProducts.ApplyEdit | src/pages/seller/ManageProducts.tsx:147-160 | the five edited fields are written, the quantity converted to a number, and id and image kept |
| ManageProducts.EditRoundTrip | src/pages/seller/ManageProducts.tsx:84-96 | opening the dialog and saving it untouched gives the product back |
| ManageProducts.DeleteLowersCount | src/pages/seller/ManageProducts.tsx:213-214 | after a delete the "products in catalog" count (line 288) never rises, and drops exactly when some listed product had that id |
| ManageProducts.CheckText | src/pages/seller/ManageProducts.tsx:113-127 | the name, description, category and price range checks add exactly their "required" messages |
| ManageProducts.FormErrorsKeys | src/pages/seller/ManageProducts.tsx:110-136 | each key is in the error record iff its check fails, the quantity's message telling blank from non-positive |
| ManageProducts.FormErrorsEmpty | src/pages/seller/ManageProducts.tsx:110-139 | the record is empty iff every check passes |
| ManageProducts.CheckQuantity | src/pages/seller/ManageProducts.tsx:129-136 | blank gives "required", a value not parsing to a positive number gives "valid positive number" |
| ManageProducts.ManageProductsPage.Load | src/pages/seller/ManageProducts.tsx:55-72 | the fetched list replaces the old one |
| ManageProducts.ManageProductsPage.EditClick | src/pages/seller/ManageProducts.tsx:84-96 | the dialog opens with the product's form and no errors |
| ManageProducts.ManageProductsPage.Cancel | src/pages/seller/ManageProducts.tsx:98-101 | `handleCancel` as written: editing stops and the dialog flag clears; nothing on the page calls it, and the edit dialog (line 379) does not read that flag |
| ManageProducts.ManageProductsPage.InputChange | src/pages/seller/ManageProducts.tsx:103-108 | the typed field is stored and the errors stay as they were |
| ManageProducts.ManageProductsPage.Validate | src/pages/seller/ManageProducts.tsx:110-140 | each error key appears iff its check fails; valid iff no error |
| ManageProducts.ManageProductsPage.Update | src/pages/seller/ManageProducts.tsx:142-196 | the stored record is the error record of the old form; a request is sent exactly when a product is being edited and that record is empty; then every product with the edited id is overwritten before the request, the change is kept whatever the answer, and the others are unchanged and keep their order; nothing changes in the list otherwise |
| ManageProducts.ManageProductsPage.Delete | src/pages/seller/ManageProducts.tsx:198-233 | on success exactly the products with that id go; on failure the list is unchanged |
| SellerProfile.NumValue | src/pages/seller/SellerProfile.tsx:105-107 | a filled number reads as itself, a cleared input as 0 |
| SellerProfile.FormFromProfile | src/pages/seller/SellerProfile.tsx:79-101 | the contact person is first and last name joined by a space, a `null` first name rendered as "null", and the established year converts back to the years in business |
| SellerProfile.ContactRoundTrip | src/pages/seller/SellerProfile.tsx:83 | the joined contact splits back into the same names exactly when neither contains a space |
| SellerProfile.ContactKeepsTwoWords | functions/b2b_backend_function/index.js:194 | a three-word contact keeps its first two words as first and last name |
| SellerProfile.TypedYear | src/pages/seller/SellerProfile.tsx:105-131 | a typed year reaches the backend as that year; a cleared input makes the years in business the current year |
| SellerProfile.FirstLetters | src/pages/seller/SellerProfile.tsx:177-181 | at most one letter per word |
| SellerProfile.Initials | src/pages/seller/SellerProfile.tsx:177-181 | the first at most three of the words' first letters, in order |
| SellerProfile.InitialsOfThreeWords | src/pages/seller/SellerProfile.tsx:177-181 | three leading words give their three first letters, whatever follows |
| SellerProfile.InitialsOfOneWord | src/pages/seller/SellerProfile.tsx:177-181 | a one-word name gives its first letter |
| SellerProfile.InitialsOfTwoWords | src/pages/seller/SellerProfile.tsx:177-181 | a two-word name gives the two first letters, in order |
| SellerProfile.SaveRoundTrip | src/pages/seller/SellerProfile.tsx:109-131 | saving the form as filled writes the profile's own names (the text of the first name) and years back, with the seller's account id |
| SellerProfile.NullFirstNameSavedAsText | src/pages/seller/SellerProfile.tsx:83 | a profile without a first name shows "null" before the last name, and saving it untouched writes First_Name "null" (index.js lines 193-199 split it back) |
| SellerProfile.SellerProfilePage.FetchDone | src/pages/seller/SellerProfile.tsx:62-101 | a fetched body is stored and, when it has keys, fills the form; loading ends either way |
| SellerProfile.SellerProfilePage.InputChange | src/pages/seller/SellerProfile.tsx:105-107 | only the typed field changes |
| SellerProfile.SellerProfilePage.Save | src/pages/seller/SellerProfile.tsx:109-131 | the request carries the form as it is and the account id |
| ProductSearch.Route | src/pages/ProductSearch.tsx:86-112 | an empty value reloads all products, a rating goes to the rating search, any other value to `/search` with its filter name |
| ProductSearch.SearchTypesAccepted | src/pages/ProductSearch.tsx:86-112 | word and category searches are exactly those the backend accepts; any other filter name would be refused |
| ProductSearch.ContactToasts | src/pages/ProductSearch.tsx:60-74 | "sent" only on success, "failed" on a failure code, no toast when the request throws |
| ProductSearch.ProductSearchPage.TypeQuery | src/pages/ProductSearch.tsx:140 | only the search text changes |
| ProductSearch.ProductSearchPage.HandleSearch | src/pages/ProductSearch.tsx:77-113 | the value is stored under its filter and the request follows the routing |
| ProductSearch.ProductSearchPage.ApplyResponse | src/pages/ProductSearch.tsx:86-112 | a body replaces the product list, an error status keeps it; loading ends |
| ProductSearch.ProductSearchPage.ClearFilters | src/pages/ProductSearch.tsx:218-226 | category, certification and rating are cleared, the text kept, and all products reloaded |
| ProductSearch.ContactBody | src/pages/ProductSearch.tsx:51-59 | the deal is named product and timestamp, links the product, and sends today as `initiatedDate` |
| ProductSearch.ContactSeller | src/pages/ProductSearch.tsx:44-75 | the resulting deal starts at Seller Contacted with quantity 0, links the product if its id is non-empty, and has no closing date |
| SellerSearch.Route | src/pages/SellerSearch.tsx:76-124 | a non-empty word, rating or certification goes to its own endpoint, anything else reloads all vendors |
| SellerSearch.ContactToasts | src/pages/SellerSearch.tsx:56-73 | the last toast is always "sent", "failed" appears iff a failure code came back, and a thrown request shows only "sent" |
| SellerSearch.SentEvenOnFailure | src/pages/SellerSearch.tsx:56-73 | the buyer always sees "sent", and a failure still differs from a success |
| SellerSearch.SellerSearchPage.ClearShownIff | src/pages/SellerSearch.tsx:205-217 | "Clear Filters" shows iff the certification or rating filter is set |
| SellerSearch.SellerSearchPage.TypeQuery | src/pages/SellerSearch.tsx:151 | only the search text changes |
| SellerSearch.SellerSearchPage.HandleSearch | src/pages/SellerSearch.tsx:76-124 | the value is stored under its filter and the request follows the routing |
| SellerSearch.SellerSearchPage.ApplyResponse | src/pages/SellerSearch.tsx:86-124 | a body replaces the seller list, a 500 keeps it; loading ends |
| SellerSearch.SellerSearchPage.ClearFilters | src/pages/SellerSearch.tsx:205-217 | certification and rating are cleared, the text kept, and all vendors reloaded |
| SellerSearch.ContactBody | src/pages/SellerSearch.tsx:47-55 | the deal is named seller and timestamp, links no product, and closes today |
| SellerSearch.ContactSeller | src/pages/SellerSearch.tsx:44-74 | the resulting deal links no product and closes today; for a four-digit year the date is an RFC 3339 full-date whose fields read back as the year, the one-based month and the day |
| SellerCard.ShownCerts | src/components/sellers/SellerCard.tsx:96 | the first at most three certifications, in order |
| SellerCard.MoreBadge | src/components/sellers/SellerCard.tsx:101-105 | a positive `+N` badge iff there are more than three |
| SellerCard.BadgesCoverList | src/components/sellers/SellerCard.tsx:90-105 | the badges plus `N` account for every certification once, and the section shows iff there is a badge |
| SellerCard.EstablishedYear | src/components/sellers/SellerCard.tsx:72 | the established year converts back to the years in business; a `null` CRM value is read as 0 and shows the current year |
| SellerCard.EstablishedYearAgreesWithProfile | src/components/sellers/SellerCard.tsx:72 | the card and the profile form show the same established year |
| SellerCard.CardLocation | src/components/sellers/SellerCard.tsx:56 | the state, one comma and the country |
| SellerCard.CardLocationDiffersFromBackend | src/components/sellers/SellerCard.tsx:56 | the card's location never equals the backend's `sellerLocation` |
| SellerCard.CardOf | src/components/sellers/SellerCard.tsx:56-105 | the card shows the vendor's name, location, established year, badges and `+N` |
| SellerCard.BadgesAreOwnCertifications | src/components/sellers/SellerCard.tsx:96 | every badge on a listed vendor's card names one of that vendor's own certifications |
| OverlayToast.EffectiveDuration | src/hooks/use-overlay-toast.tsx:29 | 3000 ms unless a duration is given |
| OverlayToast.OverlayToastState.ShowToast | src/hooks/use-overlay-toast.tsx:28-55 | the counter rises, the overlay shows, the toast is shown, a timer of duration + 50 is set under the id returned, and the count stays in step with the timers for a fresh id |
| OverlayToast.OverlayToastState.Expire | src/hooks/use-overlay-toast.tsx:44-49 | the counter drops (never below 0), the id leaves the map, and the overlay hides once none is left |
| OverlayToast.OverlayToastState.HideAll | src/hooks/use-overlay-toast.tsx:57-62 | all timers are cancelled, the counter reset and the overlay hidden |
| OverlayToast.OverlayToastState.Unmount | src/hooks/use-overlay-toast.tsx:19-26 | as `hideAll`, but the overlay flag is left alone |
| OverlayToast.TwoToasts | src/hooks/use-overlay-toast.tsx:28-55 | with two toasts the overlay stays after the first expiry and hides after the second |
| Common.TrimRemovesBlankEnds | src/pages/seller/UploadProducts.tsx:93 | `trim()` leaves the text between a blank prefix and a blank suffix, and the result neither starts nor ends with whitespace |
| Common.BlankIff | src/pages/seller/UploadProducts.tsx:93 | `!s.trim()` holds exactly when every character is whitespace |
| Common.WithoutId | src/pages/seller/MyCertifications.tsx:278 | the `id !== key` filter never lengthens the list (the product page deletes the same way at src/pages/seller/ManageProducts.tsx:214) |
| Common.WithoutIdMembers | src/pages/seller/MyCertifications.tsx:278 | a record is kept exactly when it was in the list and its id differs from the deleted one (likewise src/pages/seller/ManageProducts.tsx:214) |
| Common.WithoutIdAppend | src/pages/seller/ManageProducts.tsx:214 | the kept records keep their order across a concatenation (likewise src/pages/seller/MyCertifications.tsx:278) |
| Common.WithoutAbsentId | src/pages/seller/MyCertifications.tsx:278 | deleting an id no record has leaves the list unchanged |
| Common.ParseNumber | src/pages/seller/UploadProducts.tsx:129-137 | `Number()` of a blank text is 0 |
| Common.ParseIntToString | src/pages/seller/ManageProducts.tsx:92 | `Number(n.toString())` gives back the integer `n`, negative ones included |
| Common.FormatDateIsFullDate | src/pages/ProductSearch.tsx:259-265 | for a four-digit year the formatted date is a `YYYY-MM-DD` full date of that year, the one-based month and the day (the same helper is at src/pages/SellerSearch.tsx:247-253) |

## Left out

- CRM, OAuth and HTTP plumbing: the requests, tokens and the catch-all 500 handlers of every endpoint. CRM answers and request outcomes are inputs.
- Backend.EnrichProducts: the product, vendor and certification lists are taken as present; an empty CRM module makes `….data.data` undefined, the `forEach`/`map` at index.js lines 317, 321 and 329 throws, and the endpoint answers 500, which the model does not produce.
- Backend.AttachCertifications: with an empty Certifications module the `forEach` at index.js line 433 throws and `/getVendors` answers 500; the model returns every vendor with `[]`.
- Backend.SearchSellers: with hits but an empty Certifications module the `forEach` at index.js line 1190 throws and the answer is 500; the model answers with the hits.
- Backend.SearchSellerRating: with hits but an empty Certifications module the `forEach` at index.js line 1249 throws and the answer is 500; the model answers with the hits.
- Backend.SearchRating: with vendors found but an empty Products module the `filter` at index.js line 1119 throws and the answer is 500; the model answers `[]`. Likewise, with an empty Certifications module the `filter` at index.js line 1122, run for every product of every found vendor, throws as soon as any found vendor has a product, and the answer is 500; the model answers with those products joined to `[]` certifications.
- Backend.SearchProducts: with hits but an empty Vendors or Certifications module the `forEach` at index.js lines 1034 and 1038 throws and the answer is 500; the model answers with the enriched hits.
- Object storage: image and file uploads, image URLs and the `fileUrl` of deletes.
- Endpoints that only pass data through (buyer and seller fetches, the buyer profile update, product create/update/delete, certificate create/update/delete): they contain no logic beyond the CRM call.
- Backend.AccumulateRating: `Average_Rating` is `toPrecision(2)` of the quotient; the model keeps the exact quotient, since floating-point formatting is not modelled.
- Common.ParseNumber: models `Number()` only for optionally signed decimal integers and blank text; decimals, exponents, hex and `Infinity` read as NaN here.
- String length is counted in Dafny characters, not UTF-16 code units; a character outside the Basic Multilingual Plane counts once, where JavaScript counts two.
- Certifications.Before: compares the `YYYY-MM-DD` texts character by character, not as `Date` objects; on well-formed dates the two orders agree (`Certifications.BeforeIsDateOrder`), while other texts (an invalid `Date`) are not modelled. The days-to-expiry (`Math.ceil` of the time difference) is an input of `GetStatus`.
- SellerDeals.RoundedPercent: exact rational rounding replaces floating-point `Math.round`. The buyer page's success-rate `toFixed` is not modelled.
- The vendor counter is updated by reading and then writing in two requests; the race between concurrent feedback is not modelled.
- OverlayToast.OverlayToastState.Expire: `setTimeout` is an explicit event, and the timer map stores the delay rather than the handle.
- `window.location.reload()` after successes, and the toast texts other than the titles modelled.
- Loading flags, where a page only shows a spinner.
- The profile's `employeeCount` travels as typed text; the backend's handling of it is not modelled.
- A product whose `Vendor_Name` is `null` makes the backend throw; every product here has a vendor lookup.
- The random toast id, the clock and the current year are parameters.
