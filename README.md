# AirStellar room rental ledger — Dafny model

AirStellar lets an owner "tokenise" a room as a fixed supply of usage-right
tokens and lets a renter pay the owner over Stellar for a stay of some days.
This project models the part of the front end that keeps that ledger:

- the rental page (`app/page.tsx`): the seed catalog, the stored rooms and
  rentals, the connected key and the rental-duration counter, settlement
  address resolution, the quote `price * days + deposit`, the payment memo,
  listing a room, settling a rental, and the guards around them;
- the wallet component (`components/WalletConnection.tsx`): its
  connected/disconnected state, the callbacks it makes to the page, and the
  shortened address it shows.

Modules:

- `Wrappers` — `Option` and `Result`.
- `Numbers` — models of `parseInt` on an optional minus and digits, of
  `parseFloat` on an optional minus and `d+` or `d+.d*`, and of `${n}` on
  whole numbers; other strings are `None` (NaN), see "## Left out".
- `JsString` — `startsWith` and JavaScript's clamping `slice`.
- `Ledger` — the page's pure rules: `Room`, `Rental`, the listing form, the
  payment request and outcome, `SampleRooms`, `DefaultOwnerAddress`,
  `SettlementAddress`, `Quote`, `Memo`, `MintRoom`, `NewRental`, `Revenue`.
- `Page` — class `Home`, the page's state, with one method per handler; its
  invariant `Valid()` says the catalog is the seed rooms followed by the stored
  rooms, `rentDays >= 1`, and a disconnected page holds no key.
- `Wallet` — `FormatAddress` and class `WalletConnection`.
- `Corrections` — behaviour the page does not have (token reservation and the
  replacement of a stored room by its reserved copy, a duplicate-hash guard,
  validated listings), each paired with a lemma about the page as written; see
  "## Findings". `Page.Home.RentRoomIfAvailable` is a rent handler, not in the
  source, that uses them.
- `Scenarios` — runs of several handlers on a fresh page, showing each finding
  on the page as written and its absence under the guarded rent.

The payment service and the wallet are parameters: `PaymentOutcome` (success
with an optional hash, a failure flag, or a thrown error) and `ConnectOutcome`
(a key or an error). Ids, start dates and the random image pick are parameters
too. The browser's persistent store is the `myRooms`/`myRentals` fields.

The model follows the code as written: a
successful rental does not decrement `available`, a second record with the same
transaction hash is accepted, the token supply and deposit of a listing are not
validated, there is no sold-out check before paying, and the owner of a room is
kept from renting it only by the disabled rent button, not by the rent handler.

## Model

| member | source | states |
|---|---|---|
| `Numbers.ParseNat` | app/page.tsx:258 | a numeral parses exactly when it is a non-empty digit string |
| `Numbers.ParseInt` | app/page.tsx:258 | `parseInt` of an empty string is NaN; a digit string gives its decimal value; a leading minus negates the value of the digits after it; anything else is NaN |
| `Numbers.ParseIntOfNat` | app/page.tsx:258 | the rendering of any natural number, with or without a leading minus, reads back as that number or its negation |
| `Numbers.ParseFloat` | app/page.tsx:184 | `parseFloat` of an empty string is NaN; an unsigned numeral gives its unsigned decimal value; a leading minus negates the value of the rest, and is NaN when the rest is not a numeral |
| `Numbers.ParseUnsignedOfDecimal` | app/page.tsx:184 | `w.f` for a natural number `w` and digits `f` reads as `w + f / 10^|f|` |
| `Numbers.ParseFloatExamples` | app/page.tsx:184 | `"1.5"` reads as 1.5 and `"-2"` as -2 |
| `Numbers.NatToStringRoundTrip` | app/page.tsx:199 | the decimal rendering of a day count reads back as the same number |
| `Numbers.ParseFloatOfNat` | app/page.tsx:184 | a whole-number amount parses to its exact value |
| `JsString.SliceIndex` | components/WalletConnection.tsx:58 | `slice` counts negative indices from the end and clamps every index into the string |
| `Ledger.DefaultAddressPayable` | app/page.tsx:29 | the default address is 56 characters long and not a placeholder |
| `Ledger.SettlementAddress` | app/page.tsx:187-192 | the destination is always 56 long and never starts with `GXXXXXX`; a payable owner key is used unchanged, a missing, empty, placeholder or wrong-length key gives the default address |
| `Ledger.SettlementAddressIdempotent` | app/page.tsx:187-192 | resolving a resolved address returns it unchanged |
| `Ledger.Quote` | app/page.tsx:184 | the total is price times days plus deposit in exact arithmetic, NaN exactly when price or deposit does not parse |
| `Ledger.QuoteExample` | app/page.tsx:184 | price 100, deposit 50, 3 days cost 350 |
| `Ledger.QuoteAddsPricePerDay` | app/page.tsx:184 | one more day adds exactly the daily price |
| `Ledger.MemoNamesRoomAndDuration` | app/page.tsx:199 | the memo starts with `AirStellar: ` and the title, ends with ` gün`, and the digits in between read back as the day count |
| `Ledger.RentalRequest` | app/page.tsx:195-200 | the payment goes from the connected key, for the quoted total, to the owner key when payable and to the default address otherwise, with the memo naming the room and the day count |
| `Ledger.MintRoom` | app/page.tsx:250-264 | a minted room has `available == tokenSupply == parseInt(tokenSupply)`, is owned by the connected key, has 0 reviews and rating 5.0, and keeps the form's title, location, price and deposit |
| `Ledger.NewRental` | app/page.tsx:203-211 | a new record is active, keeps the room, days and hash, and freezes the quoted total |
| `Ledger.Revenue` | app/page.tsx:874 | the dashboard revenue is a number exactly when supply, available and price are numbers, and then equals `(tokenSupply - available) * price` |
| `Ledger.OwnListingNotRentable` | app/page.tsx:713 | a room listed by a key has its rent button disabled for that key |
| `Ledger.ListingExample` | app/page.tsx:258-259 | token supply "30" mints 30 tokens, all 30 available |
| `Page.Home.constructor` | app/page.tsx:112-124 | the page starts disconnected, with one rental day, no stored rooms or rentals, the seed catalog and an empty form |
| `Page.Home.Restore` | app/page.tsx:138-152 | a stored room list replaces the stored rooms and the catalog becomes seed rooms plus those; a stored rental list replaces the rentals |
| `Page.Home.Connect` | app/page.tsx:154-157 | the key is stored and the page is connected; rooms and rentals are untouched |
| `Page.Home.Disconnect` | app/page.tsx:159-163 | the key is cleared, the page is disconnected and returns to browsing |
| `Page.Home.CanRent` | app/page.tsx:713 | the rent button is enabled exactly when the room's owner key is not the connected key |
| `Page.Home.SelectRoom` | app/page.tsx:169-176 | the rent dialog opens with the room exactly when a wallet is connected; otherwise nothing changes |
| `Page.Home.IncrementDays` | app/page.tsx:372 | the duration grows by one and stays at least one |
| `Page.Home.DecrementDays` | app/page.tsx:361 | the duration becomes `max(1, d - 1)` and stays at least one |
| `Page.Home.CloseRentModal` | app/page.tsx:322-326 | closing the dialog clears the selection and resets the duration to one |
| `Page.Home.CalculateTotal` | app/page.tsx:295-298 | the dialog total is 0 without a selection and otherwise the quote for the current duration |
| `Page.Home.RentRoom` | app/page.tsx:178-239 | without a selection or key nothing is sent or changed; otherwise the request pays the dialog's total to the resolved address; success appends exactly one active record with the days, total and hash and resets the dialog; failure or a thrown error stores nothing; rooms never change |
| `Page.Home.EditListing` | app/page.tsx:463-531 | the form holds what was typed |
| `Page.Home.TakeToken` | app/page.tsx:202-216 | not in the source: a paid rental is appended, and every stored room with the reserved room's id replaced by the reserved copy, unless its hash is present and already recorded, in which case neither rooms nor rentals change; a rental without a hash is always stored; either way the dialog is closed and reset and the catalog stays seed rooms plus stored rooms |
| `Page.Home.RentRoomIfAvailable` | app/page.tsx:178-239 | not in the source: as `RentRoom`, but the counts of the stored room with the selection's id decide, one token per rented day, and a room with fewer tokens left than the days asked for is refused as sold out before any payment is requested; a paid result that is not already settled takes those tokens from the stored room and records the rental; a paid result whose hash is present and already recorded changes neither rooms nor rentals; stored rooms whose counts were in range stay in range |
| `Page.Home.ListRoom` | app/page.tsx:241-293 | with an empty title, price or location or no key nothing changes; otherwise exactly one minted room is appended to the stored rooms, the catalog stays seed rooms plus stored rooms, the form is cleared and the dashboard opens on "my rooms" |
| `Page.ConnectThroughWallet` | components/WalletConnection.tsx:29-42 | a key the wallet returns ends up as both the wallet's and the page's key, and the wallet's callback log gains exactly `OnConnect(key)`; a failed attempt leaves the page's key and flag and the log as they were; no other page field can change |
| `Page.DisconnectThroughWallet` | components/WalletConnection.tsx:44-49 | the wallet's new state is its disconnected state, its callback log gains exactly `OnDisconnect`, the page holds no key, is disconnected and browsing, and no other page field can change |
| `Wallet.FormatAddress` | components/WalletConnection.tsx:57-59 | the first six characters, `...`, the last six; 15 characters for any address of length 6 or more; a shorter address appears whole on both sides |
| `Wallet.FormatEmptyAddress` | components/WalletConnection.tsx:57-59 | the empty address formats to `...` |
| `Wallet.AfterConnect` | components/WalletConnection.tsx:29-42 | a returned key is stored and connects; a failure keeps key and flag; loading is over either way |
| `Wallet.AfterDisconnect` | components/WalletConnection.tsx:44-49 | disconnecting clears the key and the connected flag |
| `Wallet.DisconnectIdempotent` | components/WalletConnection.tsx:44-49 | disconnecting twice gives the same state as once |
| `Wallet.WalletConnection.constructor` | components/WalletConnection.tsx:24-26 | the component starts disconnected, with no key, not loading |
| `Wallet.WalletConnection.HandleConnect` | components/WalletConnection.tsx:29-42 | the new state is `AfterConnect` of the old one; on success the page's connect callback receives exactly the returned key, on failure no callback is made |
| `Wallet.WalletConnection.HandleDisconnect` | components/WalletConnection.tsx:44-49 | the new state is `AfterDisconnect` of the old one and the page is told of the disconnect |
| `Wallet.WalletConnection.Badge` | components/WalletConnection.tsx:96 | the badge of a key of length 6 or more is its first six characters, `...` and its last six, 15 characters in all; a shorter key appears whole on both sides of `...` |
| `Corrections.ListedRoomEarnsNothing` | app/page.tsx:874 | a freshly minted room shows revenue 0, or NaN when its supply or price does not parse |
| `Corrections.Reserve` | app/page.tsx:202-216 | not in the source: taking one token per rented day fails exactly when fewer tokens are available than days, and otherwise gives the same room with `available` lowered by the number of days |
| `Corrections.FindRoom` | app/page.tsx:178-216 | not in the source: the position of the first stored room with a given id, or the length when there is none |
| `Corrections.CurrentRoom` | app/page.tsx:178-216 | not in the source: the current counts of a selection are those of a stored room with its id, or the selection's own when no stored room has that id |
| `Corrections.CurrentRoomIsStored` | app/page.tsx:178-216 | not in the source: the current room is a stored room whenever one has the selection's id, and the selection otherwise |
| `Corrections.ReplaceRoom` | app/page.tsx:202-216 | not in the source: the stored list keeps its length, the room with the reserved room's id is replaced by it and every other room is kept |
| `Corrections.ReplaceRoomKeepsStock` | app/page.tsx:202-216 | not in the source: replacing a stored room by its reserved copy keeps every stored room within `0 <= available <= tokenSupply` |
| `Corrections.GuardedRentKeepsStock` | app/page.tsx:202-216 | not in the source: the guarded rent's update of the stored rooms keeps every stored room within `0 <= available <= tokenSupply` when all were before |
| `Corrections.ReserveKeepsStockInRange` | app/page.tsx:202-216 | not in the source: reserving any number of days keeps `0 <= available <= tokenSupply` |
| `Corrections.ReserveEarnsPrice` | app/page.tsx:874 | not in the source: with reservation a rental of d days raises the revenue figure by exactly d times the daily price, the rent collected without the deposit |
| `Corrections.CountHashPositive` | app/page.tsx:209 | a hash is counted at least once exactly when some record carries it |
| `Corrections.SameHashStoredTwice` | app/page.tsx:213-214 | the page's append stores a repeated result twice |
| `Corrections.RecordUnique` | app/page.tsx:213-214 | not in the source: a record whose hash is present and already stored is dropped; any other, including every record without a hash, is appended |
| `Corrections.RecordUniqueIdempotent` | app/page.tsx:213-214 | not in the source: recording the same rental with a hash twice stores it once; a rental without a hash is stored each time; the count of its hash grows by one unless it was already settled |
| `Corrections.HashlessRentalsAllRecorded` | app/page.tsx:209 | not in the source: two rentals paid without a hash are both stored by the guarded append |
| `Corrections.RecordUniqueKeepsHashesDistinct` | app/page.tsx:213-214 | not in the source: the guarded append keeps every present hash unique |
| `Corrections.EmptyDepositNeverQuotes` | app/page.tsx:260 | a room listed with an empty deposit has a NaN total for every duration |
| `Corrections.EmptySupplyMintsNaN` | app/page.tsx:258-259 | a room freshly minted from an empty token supply has NaN supply and availability |
| `Corrections.MintRoomChecked` | app/page.tsx:242-264 | not in the source: no key gives `AuthenticationRequired`; with a key, a listing is accepted exactly when title and location are non-empty, the price is a non-negative number and the supply a positive integer, and is otherwise a `ValidationError`; an accepted room keeps title and price, is owned by the key with every token available, and reads a missing or bad deposit as "0" |
| `Corrections.CheckedListingAlwaysQuotes` | app/page.tsx:242-264 | not in the source: an accepted room is in stock with a positive supply and quotes a non-negative total for every duration |
| `Scenarios.ListedRoomStaysUnsold` | app/page.tsx:202-216 | an owner lists a room and a different key rents and pays for it: the stored room is exactly the minted one, one active rental of it is recorded, and its revenue is still 0 or NaN |
| `Scenarios.SoldOutRoomStillRented` | app/page.tsx:178-216 | a room listed with token supply "0", which the listing guard accepts, has no token available, yet picked from the catalog by a different key it is charged for and its paid rental recorded |
| `Scenarios.SoldOutRoomRefused` | app/page.tsx:178-216 | not in the source: under the guarded rent a stored room with no token left, picked from the catalog, is refused as sold out, no payment is requested and nothing is recorded |
| `Scenarios.StaleSelectionRefused` | app/page.tsx:178-216 | not in the source: the guarded rent refuses a stored room with no token left whatever counts the selected copy carries, and leaves the stored room unchanged |
| `Scenarios.SameResultRecordedTwice` | app/page.tsx:213-214 | handing the page the same paid result twice stores two records with one hash |
| `Scenarios.SameResultRecordedOnce` | app/page.tsx:213-214 | not in the source: under the guarded rent the repeated result with a hash, for a room picked from the catalog each time, is stored once and takes exactly one token |

## Left out

- Rendering, styles and animations, and the dashboard tabs' presentation.
- `localStorage` and JSON: the stored lists are the `myRooms` and `myRentals` fields. The source reads the stored lists back before appending; the model assumes they equal the fields. `JSON.stringify` stores NaN as `null`, so once a room with a NaN supply or availability has been stored and read back (at the next listing, app/page.tsx:266, or after a reload) its counts are `null` and its revenue shows 0, not NaN; `Corrections.EmptySupplyMintsNaN` and the NaN case of `Corrections.ListedRoomEarnsNothing` describe the freshly minted room only.
- `Numbers.NatToString`: JavaScript renders numbers from 10^21 up in exponent form; the model always writes every digit. Day counts and supplies are far below that bound.
- The payment service, the wallet and `lib/stellar-helper.ts`: `lib/stellar-helper.ts` is not part of this model; their answers are the `PaymentOutcome` and `ConnectOutcome` parameters.
- `Numbers.ParseInt`: accepts only an optional minus sign followed by digits; any other string is NaN in the model, even where JavaScript returns a number (`"3.5"` gives 3, `" 7"` gives 7, `"12px"` gives 12). Leading blanks, a plus sign, trailing characters and hexadecimal input are not modelled, because the inputs here are form fields and stored numerals.
- `Numbers.ParseFloat`: accepts only `d+` or `d+.d*`, optionally negative; any other string is NaN in the model, even where JavaScript returns a number (`".5"` gives 0.5, `"12px"` gives 12). Exponents, `Infinity`, leading blanks and trailing characters are not modelled. Arithmetic is exact, so binary floating-point rounding is not modelled.
- `Ledger.RentalRequest`: the amount is the exact number, not the text `toString` produces.
- `Date.now()` ids, `toISOString()` start dates and the `Math.random()` image pick are parameters.
- `alert`, `console.error`, the clipboard copy and its `copied` flag are not modelled.
- `isProcessing` is not modelled: each handler is one atomic step, and the flag is false again when each handler ends.
- `async`, `await` and `useEffect` timing are not modelled.
- Strings are sequences of Unicode code points, while JavaScript's `length` and `slice` count UTF-16 code units. The 56-character check in `Ledger.SettlementAddress` and the slices in `Wallet.FormatAddress` agree with JavaScript only for text without characters outside the Basic Multilingual Plane (a Stellar key is ASCII).
- `Page.Home.RentRoomIfAvailable`: reserving tokens updates a stored room only; the seed rooms are constants of the page, so their counts are not lowered.
- `BalanceDisplay`, `PaymentForm` and `TransactionHistory` are not part of this model.

## Findings

The page model in module `Page` follows the code as written. The corrected
definitions live in module `Corrections`, beside the page model; only the
extra handler `Page.Home.RentRoomIfAvailable` calls them, and module
`Scenarios` runs the handlers as written beside it.

| source | as written | input that shows it | evidently intended | confidence | as-written member | corrected member |
|---|---|---|---|---|---|---|
| app/page.tsx:202-216 | a paid rental never decrements the room's `available`, so the revenue `(tokenSupply - available) * price` at line 874 stays 0 for every listed room | list a room with supply "30" and price "100", then rent it successfully: revenue is 0 | take one token per rented day, since each token is one day's use (app/page.tsx:521) and the price is daily (app/page.tsx:485), so the revenue figure grows by the rent collected; line 735 could also be read as one token per stay, so this reading is a judgement | medium, not executed | `Scenarios.ListedRoomStaysUnsold` | `Corrections.ReserveEarnsPrice` |
| app/page.tsx:213-214 | every successful result is appended with no check of its transaction hash | the same successful result recorded twice gives two records with one hash | one record per present transaction hash; payments without a hash are all kept | low, not executed | `Scenarios.SameResultRecordedTwice` | `Scenarios.SameResultRecordedOnce` |
| app/page.tsx:178-216 | the rent handler never checks `available` before requesting the payment, so a sold-out room is still charged for and recorded | list a room with token supply "0"; a different key selects it from the catalog and pays: one payment request and one stored rental | refuse a room with no token left before paying | medium, not executed | `Scenarios.SoldOutRoomStillRented` | `Scenarios.SoldOutRoomRefused` |
| app/page.tsx:242 | the token supply and deposit of a listing are not checked, so an empty field becomes NaN | a listing with deposit "" quotes NaN for every duration | reject a bad supply and read a missing deposit as 0 | medium, not executed | `Corrections.EmptyDepositNeverQuotes` | `Corrections.CheckedListingAlwaysQuotes` |
