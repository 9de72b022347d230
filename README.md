# Carpool travel navigator — a verified Dafny model

This project models the sequential logic of a browser carpool app: a mock
backend kept as one JSON blob in the browser's key-value storage, the two
ride-creation forms and their validation, a mock matching backend, the driver
leaderboard and the suggested-drivers panel, the authentication hook, and the
small state machines and validators of the header, scheduling options,
search filters, ride-application dialog, profile page and registration page.

Each source file has one Dafny module. Shared pieces live in helper modules:

- `Wrappers` holds `Option`.
- `Decimal` holds decimal number text: JavaScript's number-to-string for integers, `parseInt`, and the round trip between them.
- `Sequences` holds `startsWith`/`endsWith`, `Array.prototype.filter`, `Array.prototype.find` by a key, and a sort by numeric key.
- `RideTypes` holds the ride records.

State that the source changes in place is a class with fields:

- the stored blob;
- the authentication flag and record;
- the menu flags;
- the dialog form;
- the matching backend's tables;
- the submitting and loading flags.

Each method of such a class is proved against a pure step function on values. The properties are lemmas about those functions.

Effects the model cannot perform are recorded as event traces in the class state:

- toasts, navigation and alerts;
- the callbacks a component receives.

Inputs from the environment are parameters:

- whether the storage accepts a write;
- whether `btoa` can encode a password;
- the outcome of an awaited call;
- the `FileReader` result;
- the current year.

JavaScript numbers are Dafny `real`s wherever the source does arithmetic on fractions (costs, ratings, coordinates). Counts and scores are `int`s.

Some JavaScript operators are written out:

- `%` truncates toward zero (`Leaderboard.JsRem`).
- `Math.ceil` is `OfferForm.Ceil`.
- Dividing by zero seats plus one gives `Infinity` or `NaN` (`OfferForm.Amount`).
- `x || default` becomes `Option.GetOr`.

The stored text is a `MockStore.Slot`, one of:

- absent;
- the empty string;
- text that does not parse;
- a parsed blob.

The seeding test (`!storedData`) and the reading test (`data ? JSON.parse(data) : null`) treat these four cases differently.

Two behaviours of the source are modelled as written:

- `syncWithAdditionalData` builds the new blob from the fixture modules, not from what is stored. So creating a ride through the newer form discards offers appended by the older form (`OfferForm.RideFormSyncDropsOffers`).
- `login` reports the user as signed in even when the record could not be stored. A reload then starts signed out (`Auth.UnstoredLoginIsLostOnReload`).

## Model

| member | source | states |
|---|---|---|
| MockStore.Read | src/data/localStorage.ts:55-63 | reading yields nothing exactly when the slot is absent, holds the empty string or holds text that does not parse, and otherwise yields the stored blob; it never fails |
| MockStore.ModuleNameOfDataFile | src/data/localStorage.ts:26 | the module name of "./name.ts" is "name": one leading "./" and one trailing ".ts" are removed |
| MockStore.ModuleNameOfPlainPath | src/data/localStorage.ts:26 | a path without the "./" prefix or ".ts" suffix is its own module name |
| MockStore.ModuleName | src/data/localStorage.ts:26 | the two regex replaces; its properties are `MockStore.ModuleNameOfDataFile` and `MockStore.ModuleNameOfPlainPath` |
| MockStore.LoadedSucceeds | src/data/localStorage.ts:23-34 | collecting the data modules succeeds exactly when every file imports, and then every file's module name is a key |
| MockStore.Loaded | src/data/localStorage.ts:16-35 | the module map the glob import yields, or failure; specified by `MockStore.LoadedSucceeds`, `MockStore.DataModulesShape` and `MockStore.LastFileWins`, and computed by `MockStore.GetDataModules` |
| MockStore.DataModulesShape | src/data/localStorage.ts:16-35 | one failing import makes the whole result the empty map; otherwise every file's module name is present |
| MockStore.LastFileWins | src/data/localStorage.ts:23-28 | when two files strip to the same name, the later file's exports are kept |
| MockStore.GetDataModules | src/data/localStorage.ts:16-35 | the loop that fills the result file by file, returning `{}` at the first failed import, computes exactly the specified module map |
| MockStore.Merge | src/data/localStorage.ts:77-80 | the spread merge has the keys of both maps; a key of the additional data maps to its whole module there (no deep merge), any other key to the fixture module |
| MockStore.SetProperty | src/data/localStorage.ts:101-108 | the read-modify-write of one property; its read-back and frame are `MockStore.UpdateThenRead` and `MockStore.UpdateFrame` |
| MockStore.SeedOnlyWhenEmpty | src/data/localStorage.ts:42-46 | seeding changes the slot only when it is absent or the empty string, and leaves any other slot (even unreadable text) untouched |
| MockStore.SeedStep | src/data/localStorage.ts:40-50 | `saveToLocalStorage` on the slot; its properties are `MockStore.SeedOnlyWhenEmpty`, `MockStore.SeedIdempotent` and `MockStore.RefusedWritesChangeNothing` |
| MockStore.SyncStep | src/data/localStorage.ts:69-87 | `syncWithAdditionalData` on the slot; its properties are `MockStore.SyncIgnoresStored` and `MockStore.RefusedWritesChangeNothing` |
| MockStore.UpdateStep | src/data/localStorage.ts:95-114 | `updateModuleProperty` on the slot; its properties are `MockStore.UpdateThenRead`, `MockStore.UpdateFrame`, `MockStore.UpdateOnEmpty` and `MockStore.RefusedWritesChangeNothing` |
| MockStore.SeedIdempotent | src/data/localStorage.ts:40-50 | seeding twice is seeding once; after an accepted seed a second seed never writes |
| MockStore.UpdateThenRead | src/data/localStorage.ts:105-110 | after an accepted property update, reading gives a blob whose module holds the new value under the key |
| MockStore.UpdateFrame | src/data/localStorage.ts:101-108 | the update keeps every other property of the module and every other module as read before |
| MockStore.UpdateOnEmpty | src/data/localStorage.ts:101-110 | on empty or unreadable storage the update stores exactly `{m: {k: v}}`, after which seeding never overwrites it |
| MockStore.SyncIgnoresStored | src/data/localStorage.ts:72-83 | an accepted sync stores the fixture modules overridden module by module by the additional data, whatever was stored before |
| MockStore.RefusedWritesChangeNothing | src/data/localStorage.ts:45-49 | when the storage refuses the write, seeding, syncing and updating leave the slot unchanged (the catch only logs) |
| MockStore.Store.SaveToLocalStorage | src/data/localStorage.ts:40-50 | the store's slot becomes the seeding step of the old slot |
| MockStore.Store.SyncWithAdditionalData | src/data/localStorage.ts:69-87 | the store's slot becomes the sync step of the old slot |
| MockStore.Store.UpdateModuleProperty | src/data/localStorage.ts:95-114 | the store's slot becomes the read-modify-write update step of the old slot |
| CreateRide.PreferenceTagsExact | src/components/ride-form/AddRideForm.tsx:97-102 | each preference tag is present exactly when its flag is set, there are at most four and none twice, and whatever flags are set the tags come in the order Smoking, Pets, Music, Chatting (their `TagRank` strictly increases) |
| CreateRide.PreferenceTags | src/components/ride-form/AddRideForm.tsx:97-102 | the preference tags of the new ride; specified by `CreateRide.PreferenceTagsExact` |
| CreateRide.NewRideShape | src/components/ride-form/AddRideForm.tsx:71-108 | the new ride has total seats equal to available seats, an empty waitlist, price fuel + parking, a recurrence exactly when recurring (days defaulting to none), and an id "ride" followed by the decimal of count + 1 |
| CreateRide.RideId | src/components/ride-form/AddRideForm.tsx:72 | the id "ride" followed by the count plus one; its distinctness is `CreateRide.SubmitKeepsIdsSequential` through `Decimal.NatToStringInjective` |
| CreateRide.NewRide | src/components/ride-form/AddRideForm.tsx:71-108 | the ride record built from the form; specified by `CreateRide.NewRideShape` |
| CreateRide.SubmitAppendsRide | src/components/ride-form/AddRideForm.tsx:66-118 | the stored ride list becomes the earlier list, unchanged and in order, followed by the new ride, and the `mockRides` module holds only that list |
| CreateRide.SubmitStep | src/components/ride-form/AddRideForm.tsx:66-118 | the store update of a submission; specified by `CreateRide.SubmitAppendsRide` and `CreateRide.SubmitKeepsIdsSequential` |
| CreateRide.SubmitKeepsIdsSequential | src/components/ride-form/AddRideForm.tsx:72 | a list with ids ride1, ride2, … keeps that shape after a submission, so its ids stay distinct |
| CreateRide.RideForm.OnSubmit | src/components/ride-form/AddRideForm.tsx:62-145 | the store takes the submit step, the submitting flag ends false, and the success toast and the provided callbacks fire in order |
| RideFormSchema.DateKey | src/components/ride-form/types.ts:44-47 | a date parses exactly when it is four digits, a dash, two digits for a month from 1 to 12, a dash and two digits for a day from 1 to 31, and its key is year·10000 + month·100 + day |
| RideFormSchema.TimeKey | src/components/ride-form/types.ts:44-45 | a time parses exactly when it is two digits for an hour up to 23, a colon and two digits for a minute up to 59, and its key is hour·100 + minute, below 2400 |
| RideFormSchema.ValidNumericBounds | src/components/ride-form/types.ts:10-30 | a valid form has 1 to 8 seats, a 5 to 60 minute pickup window, non-negative fuel and parking costs, and a vehicle year from 1900 to next year |
| RideFormSchema.Valid | src/components/ride-form/types.ts:3-70 | `safeParse(d).success`: the field bounds and both refinements; specified by `RideFormSchema.ValidNumericBounds`, `RideFormSchema.ValidTextBounds`, `RideFormSchema.ReturnTripRule` and `RideFormSchema.RecurrenceRule` |
| RideFormSchema.FieldsValid | src/components/ride-form/types.ts:3-36 | the per-field bounds; specified by `RideFormSchema.ValidNumericBounds` and `RideFormSchema.ValidTextBounds` |
| RideFormSchema.ValidTextBounds | src/components/ride-form/types.ts:5-18 | a valid form has locations of at least 3 characters, non-empty name, phone, make, model, colour, plate, date and time, and an email the email check accepts |
| RideFormSchema.ReturnTripRule | src/components/ride-form/types.ts:37-49 | with a return trip, the refinement holds exactly when return date and time are given and the return instant is at or after departure |
| RideFormSchema.ReturnTripValid | src/components/ride-form/types.ts:37-52 | the return-trip refinement; specified by `RideFormSchema.ReturnTripRule` and `RideFormSchema.SameInstantReturnAccepted` |
| RideFormSchema.RecurrenceRule | src/components/ride-form/types.ts:53-66 | for a recurring ride, the refinement holds exactly when some day is chosen and any non-empty end date is a valid date on or after a valid departure date |
| RideFormSchema.RecurrenceValid | src/components/ride-form/types.ts:52-70 | the recurrence refinement; specified by `RideFormSchema.RecurrenceRule` and `RideFormSchema.DateOrderIsTextOrder` |
| RideFormSchema.RefinementsNeedTheirFlags | src/components/ride-form/types.ts:37-66 | without the return-trip flag or the recurring flag, the matching refinement accepts unconditionally |
| RideFormSchema.SameInstantReturnAccepted | src/components/ride-form/types.ts:47 | a return at exactly the departure instant is accepted |
| RideFormSchema.DigitOrderIsLexOrder | src/components/ride-form/types.ts:61-63 | for digit strings of equal length, numeric order and text order agree |
| RideFormSchema.DateOrderIsTextOrder | src/components/ride-form/types.ts:61-63 | two valid dates compare by the model's day key exactly as their texts compare |
| OfferForm.Ceil | src/components/AddRideForm.tsx:64 | `Math.ceil` gives the least integer not below its argument |
| OfferForm.RidePrice | src/components/AddRideForm.tsx:56-65 | `calculateRidePrice`; specified by `OfferForm.PriceIsFairShare` and `OfferForm.PriceMonotone` |
| OfferForm.CalculatedPrice | src/components/AddRideForm.tsx:95-98 | the memoised price with free parking as cost 0; specified by `OfferForm.FreeParkingIgnoresParking` |
| OfferForm.FreeParkingIgnoresParking | src/components/AddRideForm.tsx:95-98 | with free parking the price is computed with parking cost 0 |
| OfferForm.PriceIsFairShare | src/components/AddRideForm.tsx:56-65 | for non-negative inputs the price is a whole number ≥ 0, zero exactly when fuel + parking is zero, never below 1.3·(fuel + parking)/(seats + 1) and less than one above it |
| OfferForm.PriceMonotone | src/components/AddRideForm.tsx:61-64 | the price does not fall when fuel or parking cost rises and does not rise when seats rise |
| OfferForm.PriceLabelReadsBack | src/components/AddRideForm.tsx:122 | the stored price text is the price's decimal followed by " EUR", and its figure parses back to the price |
| OfferForm.SubmitAppendsOffer | src/components/AddRideForm.tsx:113-125 | a submission appends exactly one offer after the stored offers (none when absent), keeping every other export of every module |
| OfferForm.OfferStatus | src/components/AddRideForm.tsx:121-123 | the offer's status is "Recurring" exactly for a recurring ride and "Active" otherwise; its seats are the available seats |
| OfferForm.NewOffer | src/components/AddRideForm.tsx:116-124 | the offer record appended on submit; specified by `OfferForm.OfferStatus` and `OfferForm.PriceLabelReadsBack` |
| OfferForm.SubmitStep | src/components/AddRideForm.tsx:111-127 | the store update of a submission; specified by `OfferForm.SubmitAppendsOffer` and `OfferForm.RideFormSyncDropsOffers` |
| OfferForm.RideFormSyncDropsOffers | src/data/localStorage.ts:74-80 | a ride created through the newer form afterwards leaves no stored offers |
| OfferForm.OfferFormPage.OnSubmit | src/components/AddRideForm.tsx:100-139 | the store takes the append-offer step, the submitting flag ends false, and a success toast and navigation to "/my-rides" follow |
| SmartMatching.AnalyzeRoutesExact | src/data/smartMatching.ts:53-60 | the matches are exactly the drivers whose home differs by strictly less than 0.02 in both coordinates, in input order (also src/lib/smartMatchingUtils.ts:8-16) |
| SmartMatching.AnalyzeRoutes | src/data/smartMatching.ts:53-60 | `analyzeRoutes(home)`; specified by `SmartMatching.AnalyzeRoutesExact` |
| SmartMatching.FindUser | src/data/smartMatching.ts:77 | `users.find` by id, as `Sequences.FindFirst` keyed by the user id: the first user with that id, or nothing |
| SmartMatching.FindRide | src/data/smartMatching.ts:132 | `rides.find` by id, as `Sequences.FindFirst` keyed by the ride id: the first ride with that id, or nothing |
| SmartMatching.SuggestDrivers | src/data/smartMatching.ts:64-67 | suggestions exist exactly when the passenger is known (an unknown one faults in the source), and then a user is suggested exactly when it is in the table and is a driver near the passenger's home |
| SmartMatching.SuggestDriversExact | src/data/smartMatching.ts:64-67 | for a known passenger, the suggestions are the drivers near the first matching user's home, each as often as the table lists it, in table order |
| SmartMatching.VerifyEmployeeExact | src/data/smartMatching.ts:102-104 | an email is verified exactly when it ends with "@company.com" (also src/lib/smartMatchingUtils.ts:57-59) |
| SmartMatching.VerifyEmployee | src/data/smartMatching.ts:102-104 | `verifyEmployee(email).verified`; specified by `SmartMatching.VerifyEmployeeExact` and `SmartMatching.VerifyEmployeeExamples` |
| SmartMatching.VerifyEmployeeExamples | src/data/smartMatching.ts:102-104 | "alice@company.com" passes; "alice@company.co" and "bob@mycompany.com" do not |
| SmartMatching.GetRidesForUserExact | src/data/smartMatching.ts:122-128 | the result is exactly the rides the user drives or is a passenger of, in order (also src/lib/smartMatchingUtils.ts:77-83) |
| SmartMatching.GetRidesForUser | src/data/smartMatching.ts:122-128 | `getRidesForUser`; specified by `SmartMatching.GetRidesForUserExact` |
| SmartMatching.GetMessagesExact | src/data/smartMatching.ts:150-152 | the result is exactly the messages of the ride, in order, and filtering again changes nothing |
| SmartMatching.GetMessages | src/data/smartMatching.ts:150-152 | `getMessages`; specified by `SmartMatching.GetMessagesExact` |
| SmartMatching.PointsAddedOnlyThere | src/data/smartMatching.ts:76-80 | the found user's points rise by the amount and no other user changes; an unknown id changes nothing (also src/lib/smartMatchingUtils.ts:31-35) |
| SmartMatching.PointsAdded | src/data/smartMatching.ts:76-80 | the users table after `addRidePoints`; specified by `SmartMatching.PointsAddedOnlyThere` |
| SmartMatching.BadgeCheckedRule | src/data/smartMatching.ts:83-88 | "century-rider" is held afterwards exactly when it was held or points are at least 100; below 100 nothing changes; it is never held twice; a second check changes nothing (also src/lib/smartMatchingUtils.ts:38-44) |
| SmartMatching.BadgeChecked | src/data/smartMatching.ts:83-88 | the user after `checkBadges`; specified by `SmartMatching.BadgeCheckedRule` |
| SmartMatching.PassengerAddedRule | src/data/smartMatching.ts:131-137 | afterwards the first ride with that id lists the passenger, a duplicate-free passenger list stays duplicate-free, other rides are unchanged, a second application changes nothing and an unknown ride changes nothing (also src/lib/smartMatchingUtils.ts:86-92) |
| SmartMatching.PassengerAdded | src/data/smartMatching.ts:131-137 | the rides table after `applyForRide`; specified by `SmartMatching.PassengerAddedRule` |
| SmartMatching.Backend.AddRidePoints | src/data/smartMatching.ts:76-80 | the users table takes the points step and the new total is returned, nothing for an unknown id |
| SmartMatching.Backend.CheckBadges | src/data/smartMatching.ts:83-88 | the found user takes the badge step and its badges are returned; other users are unchanged |
| SmartMatching.Backend.ApplyForRide | src/data/smartMatching.ts:131-137 | the rides table takes the passenger step and the status is always "approved" |
| Leaderboard.NextSortRule | src/pages/Leaderboard.tsx:17-24 | clicking the current column flips the order and two clicks restore the state; clicking another column selects it in descending order |
| Leaderboard.NextSort | src/pages/Leaderboard.tsx:17-24 | `handleSort` on the sort state; specified by `Leaderboard.NextSortRule` |
| Leaderboard.SortedDriversOrdered | src/pages/Leaderboard.tsx:50-62 | the rows are a permutation of the scored drivers, with the selected key non-decreasing in ascending order and non-increasing in descending order |
| Leaderboard.SortedDrivers | src/pages/Leaderboard.tsx:50-62 | the sorted rows; specified by `Leaderboard.SortedDriversOrdered` |
| Leaderboard.JsRem | src/pages/Leaderboard.tsx:75-76 | JavaScript's `%` agrees with the mathematical remainder on non-negative numbers, is `a - b·q` with the quotient truncated toward zero on negative ones (so it is never positive there), and stays strictly between -b and b |
| Leaderboard.OrdinalSuffixRule | src/pages/Leaderboard.tsx:74-87 | the suffix is "st", "nd" or "rd" exactly when the last digit is 1, 2 or 3 and the last two digits are not 11, 12 or 13, and "th" otherwise |
| Leaderboard.OrdinalSuffix | src/pages/Leaderboard.tsx:74-85 | the suffix `getOrdinalSuffix` appends; specified by `Leaderboard.OrdinalSuffixRule` |
| Leaderboard.Ordinal | src/pages/Leaderboard.tsx:74-87 | the rank with its suffix; specified by `Leaderboard.OrdinalExamples` |
| Leaderboard.OrdinalExamples | src/pages/Leaderboard.tsx:74-87 | 1st, 2nd, 3rd, 4th, 11th, 12th, 13th, 21st, 22nd, 111th, 112th |
| Leaderboard.LeaderboardPage.constructor | src/pages/Leaderboard.tsx:14-15 | the page starts sorted by score, descending |
| Leaderboard.LeaderboardPage.HandleSort | src/pages/Leaderboard.tsx:17-24 | the sort state takes the next-sort step |
| SuggestedDrivers.UniqueDrivers | src/components/SuggestedDrivers.tsx:18-26 | the reduce, run as a loop that pushes each ride's driver unless the id is already there, computes exactly the specified distinct-driver list |
| SuggestedDrivers.Distinct | src/components/SuggestedDrivers.tsx:18-26 | the distinct-driver list as a fold; specified by `SuggestedDrivers.DistinctIdsUnique`, `SuggestedDrivers.DistinctCovers`, `SuggestedDrivers.DistinctFirst` and `SuggestedDrivers.FirstAppearanceOrder`, and computed by `SuggestedDrivers.UniqueDrivers` |
| SuggestedDrivers.DistinctIdsUnique | src/components/SuggestedDrivers.tsx:18-26 | no driver id occurs twice in the list |
| SuggestedDrivers.DistinctCovers | src/components/SuggestedDrivers.tsx:19-24 | every ride's driver id occurs in the list |
| SuggestedDrivers.DistinctFirst | src/components/SuggestedDrivers.tsx:20-24 | each listed driver is the driver record of the first ride with that id |
| SuggestedDrivers.FirstAppearanceOrder | src/components/SuggestedDrivers.tsx:18-26 | drivers are listed in the order of their first rides |
| SuggestedDrivers.SortedDriversRule | src/components/SuggestedDrivers.tsx:29 | the displayed drivers are a permutation of the distinct drivers with ratings non-increasing |
| SuggestedDrivers.SortedDrivers | src/components/SuggestedDrivers.tsx:29 | the drivers sorted by rating; specified by `SuggestedDrivers.SortedDriversRule` |
| SuggestedDrivers.TierOf | src/components/SuggestedDrivers.tsx:48-66 | Gold at 100 or more rides, Silver at 50 to 99, Bronze at 10 to 49, none below 10, each exactly on its range |
| SuggestedDrivers.TierMonotone | src/components/SuggestedDrivers.tsx:48-66 | more rides never give a lower tier |
| SuggestedDrivers.ListedDriversHaveRides | src/components/SuggestedDrivers.tsx:83-86 | every listed driver's "rides available" count is at least 1 |
| SuggestedDrivers.RideCount | src/components/SuggestedDrivers.tsx:83-86 | the "rides available" count, the length of the rides filtered by driver id; what that filter keeps is `Sequences.Filter`'s contract, and `SuggestedDrivers.ListedDriversHaveRides` proves it at least 1 for a listed driver |
| Auth.InitiallyAuthenticated | src/hooks/auth.ts:14-16 | the hook starts signed in exactly when a non-empty entry is stored under the auth key |
| Auth.StoreStep | src/hooks/auth.ts:18-36 | storing signs in exactly when encoding and writing succeed, and then the slot holds email, encoded password and name; on failure the slot is unchanged and the flag is false |
| Auth.LogoutStep | src/hooks/auth.ts:65-72 | logout empties the slot and signs out |
| Auth.LoginRule | src/hooks/auth.ts:38-48 | login always ends signed in, stores the record without a name when storing succeeds, and otherwise leaves the slot unchanged |
| Auth.LoginStep | src/hooks/auth.ts:38-48 | `login` on the hook state; specified by `Auth.LoginRule` and `Auth.UnstoredLoginIsLostOnReload` |
| Auth.RegisterRule | src/hooks/auth.ts:50-63 | after register, signed in holds exactly when the record was stored, and the record carries the name and email |
| Auth.RegisterStep | src/hooks/auth.ts:50-63 | `register` on the hook state; specified by `Auth.RegisterRule` and `Auth.ReloadAgrees` |
| Auth.ReloadAgrees | src/hooks/auth.ts:14-16 | a fresh hook after a stored registration or login starts signed in, and after logout it starts signed out |
| Auth.UnstoredLoginIsLostOnReload | src/hooks/auth.ts:38-42 | a login whose password cannot be encoded is signed in now but signed out after a reload |
| Auth.AuthHook.constructor | src/hooks/auth.ts:14-16 | the flag starts as the stored-entry test |
| Auth.AuthHook.StoreUserData | src/hooks/auth.ts:18-36 | flag and slot take the store step |
| Auth.AuthHook.Login | src/hooks/auth.ts:38-48 | flag and slot take the login step and the result is true |
| Auth.AuthHook.Register | src/hooks/auth.ts:50-63 | flag and slot take the register step and the result is true |
| Auth.AuthHook.Logout | src/hooks/auth.ts:65-72 | flag and slot take the logout step |
| Header.IsActiveRoute | src/components/Header.tsx:18-22 | "/" is active exactly on the path "/"; any other item is active exactly when the path starts with its href |
| Header.AtMostOneActive | src/components/Header.tsx:12-22 | for any path, no two of the three navigation items are active together |
| Header.PrefixNotSegmentAware | src/components/Header.tsx:20 | "/analyticsX" activates "/analytics", a sub-path activates its item, and "/" activates only home |
| Header.HeaderMenus.constructor | src/components/Header.tsx:8-9 | both menus start closed |
| Header.HeaderMenus.ToggleProfileDropdown | src/components/Header.tsx:60 | the dropdown flag flips and the mobile flag is kept |
| Header.HeaderMenus.CloseProfileDropdown | src/components/Header.tsx:75 | any dropdown entry closes the dropdown and keeps the mobile flag |
| Header.HeaderMenus.ToggleMobileMenu | src/components/Header.tsx:108 | the mobile flag flips and the dropdown flag is kept |
| Header.HeaderMenus.CloseMobileMenu | src/components/Header.tsx:130 | any mobile link closes the mobile menu and keeps the dropdown flag |
| Header.HeaderMenus.ToggleTwice | src/components/Header.tsx:60-108 | a property of the two toggle handlers rather than a handler of its own: pressing each toggle twice restores both flags |
| SchedulingOptions.IsChecked | src/components/SchedulingOptions.tsx:70 | a day's box is checked exactly when the list exists and contains the day |
| SchedulingOptions.CheckAppends | src/components/SchedulingOptions.tsx:72-74 | checking appends the day after the current days (an absent list counts as empty), without de-duplication, and the box is then checked |
| SchedulingOptions.OnCheckedChange | src/components/SchedulingOptions.tsx:72-76 | the checkbox handler; specified by `SchedulingOptions.CheckAppends`, `SchedulingOptions.UncheckRemovesAll`, `SchedulingOptions.UncheckAbsent` and `SchedulingOptions.CheckThenUncheck` |
| SchedulingOptions.UncheckRemovesAll | src/components/SchedulingOptions.tsx:75-76 | unchecking removes every copy of the day, keeps every other day's copies, and the box is then unchecked |
| SchedulingOptions.UncheckAbsent | src/components/SchedulingOptions.tsx:72-76 | unchecking a day that is not there leaves the list as it was |
| SchedulingOptions.CheckThenUncheck | src/components/SchedulingOptions.tsx:73-76 | checking then unchecking a day not selected restores the list |
| SchedulingOptions.WeekdaysDistinct | src/components/SchedulingOptions.tsx:17-25 | the checkbox ids are the seven weekdays, all distinct |
| SearchFilters.UpdateFilterRule | src/components/SearchFilters.tsx:16-18 | the updated field holds the new value and every other field is unchanged |
| SearchFilters.UpdateFilter | src/components/SearchFilters.tsx:16-18 | `updateFilter`: the criteria with one field replaced; specified by `SearchFilters.UpdateFilterRule`, `SearchFilters.UpdateFilterIdempotent` and `SearchFilters.UpdatesCommute` |
| SearchFilters.UpdateFilterIdempotent | src/components/SearchFilters.tsx:16-18 | the same update twice equals once, and of two updates to one field the later wins |
| SearchFilters.UpdatesCommute | src/components/SearchFilters.tsx:16-18 | updates of different fields commute |
| SearchFilters.UpdateTimeRange | src/components/SearchFilters.tsx:20-25 | only the chosen bound of the time range changes; the other bound and every other field are kept |
| SearchFilters.UpdateTimeRangeIdempotent | src/components/SearchFilters.tsx:20-25 | setting the same bound twice equals setting it once |
| SearchFilters.SliderChange | src/components/SearchFilters.tsx:141-147 | the slider sets the maximum distance to the position it reports, within 5 to 100, through `parseInt` of its text, and changes nothing else |
| ApplicationDialog.SubmitStep | src/components/RideApplicationDialog.tsx:48-60 | with the terms accepted, the data is handed on, the form resets to empty and the dialog closes, in that order; otherwise nothing changes and nothing fires |
| ApplicationDialog.DisabledIffNoEffect | src/components/RideApplicationDialog.tsx:170 | the submit button is disabled exactly when a submit would do nothing, and `handleSubmit` hands the data on exactly when it is enabled |
| ApplicationDialog.SubmitDisabled | src/components/RideApplicationDialog.tsx:170 | the disabled test of the submit button; specified by `ApplicationDialog.DisabledIffNoEffect` |
| ApplicationDialog.NoDoubleSubmit | src/components/RideApplicationDialog.tsx:52-57 | after a successful submit the reset unticks the terms, so an immediate second submit does nothing |
| ApplicationDialog.ApplicationForm.constructor | src/components/RideApplicationDialog.tsx:41-46 | the form starts empty with the terms unticked |
| ApplicationDialog.ApplicationForm.SetPickupLocation | src/components/RideApplicationDialog.tsx:109-112 | only the pickup location changes |
| ApplicationDialog.ApplicationForm.SetPhoneNumber | src/components/RideApplicationDialog.tsx:124-127 | only the phone number changes |
| ApplicationDialog.ApplicationForm.SetMessage | src/components/RideApplicationDialog.tsx:138-141 | only the message changes |
| ApplicationDialog.ApplicationForm.SetAgreedToTerms | src/components/RideApplicationDialog.tsx:150-153 | only the terms flag changes |
| ApplicationDialog.ApplicationForm.HandleSubmit | src/components/RideApplicationDialog.tsx:48-60 | form and event trace take the submit step |
| Profile.CheckFile | src/pages/Profile.tsx:14-27 | no file gives no change; a type not starting with "image/" is rejected first; an image over 5·1024·1024 bytes is rejected; anything else is accepted |
| Profile.CheckFileBoundaries | src/pages/Profile.tsx:18-27 | exactly 5 MiB is accepted, one byte more is not, and a large non-image is reported as a type error |
| Profile.AlertFor | src/pages/Profile.tsx:18-27 | an alert is raised exactly for a non-image or an oversized image, with the source's two texts |
| Profile.ProfilePage.HandleFileChange | src/pages/Profile.tsx:14-37 | an accepted file becomes the preview; a rejected one raises its alert and keeps the old picture |
| Register.MismatchGate | src/pages/Register.tsx:23-30 | with differing passwords only the mismatch toast happens: no call, no loading change, no navigation |
| Register.SubmitEffects | src/pages/Register.tsx:20-60 | the effects of `handleSubmit`; specified by `Register.MismatchGate`, `Register.LoadingBracketsCall` and `Register.NavigatesIffRegistered` |
| Register.LoadingBracketsCall | src/pages/Register.tsx:32-59 | with matching passwords loading goes on before the call and off as the very last effect |
| Register.NavigatesIffRegistered | src/pages/Register.tsx:36-56 | the page navigates to "/" exactly when the passwords match and `register` resolves to true |
| Register.RegisterPage.HandleSubmit | src/pages/Register.tsx:20-60 | the loading flag ends false on every matched path and is untouched on a mismatch; the effects are the specified ones |
| Decimal.NatToString | src/components/ride-form/AddRideForm.tsx:72 | a count prints as non-empty decimal digits without a leading zero |
| Decimal.IntToString | src/components/AddRideForm.tsx:122 | an integer prints with a leading "-" exactly when it is negative |
| Decimal.DigitsValueOfNatToString | src/components/ride-form/AddRideForm.tsx:72 | the printed digits of a count have that count as their value |
| Decimal.NatToStringInjective | src/components/ride-form/AddRideForm.tsx:72 | different counts print differently |
| Decimal.ParseInt | src/components/SearchFilters.tsx:147 | `parseInt` fails exactly when, after leading blanks and one sign, no digit follows |
| Decimal.ParseIntOfIntToString | src/components/SearchFilters.tsx:147 | `parseInt` reads back every printed integer |
| Sequences.Filter | src/data/smartMatching.ts:54 | `filter` keeps only elements that pass, keeps every element that passes, and never grows the list |
| Sequences.FilterCounts | src/components/SchedulingOptions.tsx:76 | filtering keeps every copy of a passing element and drops every copy of a failing one |
| Sequences.FindFirst | src/data/smartMatching.ts:77 | `find` by a key yields the index of the first element with that key, or nothing exactly when no element has it (also src/data/smartMatching.ts:64, :85 and :132) |
| Sequences.FindFirstAt | src/data/smartMatching.ts:132 | the index where the key first matches is the one `find` returns |
| Sequences.FindFirstPrefix | src/data/smartMatching.ts:64 | an element found in a list is found at the same index in any extension of the list |
| Sequences.FilterIdempotent | src/data/smartMatching.ts:151 | filtering twice with one predicate equals filtering once |
| Sequences.SortBy | src/pages/Leaderboard.tsx:51 | sorting by a numeric key gives a permutation of the input, ordered by the key in the chosen direction |

## Left out

- Rendering, CSS, toast contents beyond their titles, and React re-render timing are not modelled. Routing is modelled only as recorded navigation effects.
- The browser storage and the JSON layer are abstract. A stored blob is a map of maps. JSON text that parses to something other than an object (a number, `null`, an array) is not distinguished from a parsed blob. A write the storage refuses is a `false` `accepted` argument.
- The `import.meta.glob` dynamic import is a fixed list of fixture files, each importing or failing. The glob's ordering is taken as the list order.
- The values inside module exports are lists of rides, lists of offers, or an opaque tag. The source reads `mockRides.mockRides` and `mockRides.myOffers` with unchecked casts. Here a value of any other shape reads as the empty list.
- CreateRide.RideForm.OnSubmit: does not model the error path. In the source, a storage write failure is caught inside `syncWithAdditionalData`, so the error toast could only come from a throwing callback; callbacks are taken not to throw.
- OfferForm.OfferFormPage.OnSubmit: does not model the promise that never resolves when the stored `myOffers` is not iterable.
- The one-second and half-second `setTimeout` delays are collapsed into synchronous steps.
- Floating point is exact arithmetic. The 1.3 markup and the 0.02 coordinate box use Dafny `real`. Binary rounding in the source can differ when an exact result lands on an integer or on the box boundary.
- Leaderboard.SortedDriversOrdered: states permutation and order but not stability. The insertion sort places each element before equal keys from the tail, and the JavaScript engine's sort is stable; this is not proved.
- The leaderboard score formula (`calculateScore`, with `log10` and `Math.round`) is not modelled. The score is a given integer.
- Dates and times are parsed only as zero-padded "YYYY-MM-DD" and "HH:MM". JavaScript's `Date` also accepts other forms and rolls over impossible days such as February 30. It reads date-only text as UTC and date-time text as local time. None of that is modelled. An invalid date compares as false, as `NaN` does.
- The email check of the form schema is an abstract predicate. The current year is a parameter.
- Auth.AuthHook.Logout: does not model a failing `removeItem`, which the source catches and logs.
- `btoa` is an abstract encoder that may fail. Its encoding itself is not modelled.
- Lengths are counted in Unicode code points as Dafny `char`s. JavaScript counts UTF-16 code units, which differ outside the Basic Multilingual Plane.
- SmartMatching: an unknown user id, which `suggestDrivers` (smartMatching.ts:66), `addRidePoints` (:79) and `checkBadges` (:88) dereference and fault on, returns `None` and changes nothing. An unknown ride id is handled by the source itself: `applyForRide` skips the update and still answers "approved", as `SmartMatching.Backend.ApplyForRide` does. `calculateETA`, `getLeaderboard`, `getSustainabilityStats`, `singleSignOn`, `logout` and `getUserProfile` return fixed dummy values and are not modelled. The module-level tables are fields of one object.
- The ride search routine that applies the criteria is not part of this model. Only the editor of the criteria record is.
- ApplicationDialog: the browser's `required`-field check on the pickup location and phone number inputs (RideApplicationDialog.tsx:113 and :128) is not modelled. The browser blocks the submit while either is empty, so `handleSubmit` never runs then. `ApplicationDialog.DisabledIffNoEffect` is about `handleSubmit` and the button's `disabled` test, not about the whole dialog.
- Profile: the `FileReader` result is a parameter, and the alert is recorded as text.
- Register: the awaited `register` is abstract. Its outcome (true, false or a throw) is a parameter, because the authentication context that wraps it is not part of this model.
