# Health insurance coverage — a verified model

This project models the decision logic of a small health-insurance dApp.
Its two API endpoints and its browser code decide these things:

- how much of a medication's price an insurance plan covers;
- which medications a catalogue query returns;
- which plans are on offer;
- how a browser-side transaction log is kept in local storage;
- how the medication-verification panel derives a user's insurance status,
  falls back to a local price table, and pays for a medication.

The model uses these conventions:

- Money is a whole number of wei (`nat`).
- Times are integers: milliseconds on the browser side and seconds on the contract side.
- The clock, the wallet, the contract's answers and local storage's JSON codec are parameters.

The modules follow the source files:

| module | models |
|---|---|
| `Verification` (verification.dfy) | `api/verification/index.js`: the plan→percentage switch, the integer coverage split and the POST handler's 400 / 404 / 200 decision |
| `Medications` (medications.dfy) | `api/medications/index.js`: the catalogue and its id / category / search filter pipeline |
| `Plans` (plans.dfy) | `api/plans/index.js`: the plan table and its seconds→days listing |
| `Web3` (web3.dfy) | `frontend/src/utils/web3.js`: the contract-address cell, the transaction log, the purchase functions and the error-to-default wrappers; the class `Web3Session` holds the module variable and local storage |
| `MedicationVerification` (medication_verification.dfy) | `frontend/src/components/MedicationVerification.jsx`: status from the log, reconciliation with the contract, fallback coverage, the search decision tree, the amount due and the status banner; the class `VerificationPanel` holds the component state |

`Text` (ASCII lower-casing and substring search), `Sequences` (`filter` and
subsequences) and `Wrappers` (`Option`, `Result`) are shared helpers.

The percentage switch is defined once, in `Verification.CoveragePercentage`.
Two lemmas check the other copies against it:

- `Plans.PercentageTableAgrees` checks the plan table.
- `MedicationVerification.FallbackAgreesWithVerification` checks the panel's demo price and name table against the catalogue and the verification endpoint. The panel's own copy of the switch (MedicationVerification.jsx lines 183-195) is not a separate definition here: the fallback calls `Verification.CoveragePercentage`, so the two switches agree by construction.

## Model

| member | source | states |
|---|---|---|
| Text.Lower | api/medications/index.js:72 | `toLowerCase` over ASCII: same length; each upper-case letter becomes its lower-case letter and every other character is kept |
| Text.LowerIdempotent | api/medications/index.js:85 | lower-casing twice is lower-casing once |
| Text.IncludesIffOccurs | api/medications/index.js:87-88 | `includes` holds exactly when the needle occurs at some position of the haystack |
| Sequences.FilterIsSubsequence | api/medications/index.js:71-73 | `filter` keeps a subsequence: nothing is added, duplicated or reordered |
| Sequences.FilterFirst | frontend/src/components/MedicationVerification.jsx:249-255 | the head of a filtered list is the first accepted element of the original |
| Verification.CoveragePercentage | api/verification/index.js:9-21 | Basic gives 60, Standard 80 and Premium 90 (each an iff); every other name gives 0; the result lies in [0,100] |
| Verification.Split | api/verification/index.js:23-24 | covered + co-pay equals the price; covered is the price times the percentage divided by 100, truncated |
| Verification.CalculateCoverage | api/verification/index.js:6-32 | echoes the price and the percentage used; covered and co-pay are as in the split |
| Verification.CoveredIsTheTruncatedShare | api/verification/index.js:23 | the bracket `covered*100 <= price*pct < covered*100+100` determines covered uniquely, so covered is exactly the floor |
| Verification.SplitEdgeCases | api/verification/index.js:23-24 | pct 0 gives (0, price); pct 100 gives (price, 0); price 0 gives (0, 0) |
| Verification.Report | api/verification/index.js:83-102 | active insurance: the plan's split; inactive: covered 0, co-pay the full price, percentage 0; `hasCoverage` equals `isActive` |
| Verification.Verify | api/verification/index.js:46-104 | 400 "Missing required parameters" iff a field is missing or empty; 404 "Medication not found" iff the fields are present and the id is not in the table; otherwise 200 with the coverage report of the table price |
| Verification.HandleVerification | api/verification/index.js:46-111 | the deployed handler as written, under the hard-coded active Standard user: every 200 answer has coverage at 80 percent; it answers 500 iff the fields are present and the id is an inherited property name, and otherwise as the corrected `Verify` |
| Verification.WorkedExampleMed001 | api/verification/index.js:60-85 | MED001 (5e15 wei) gives covered 4e15 and co-pay 1e15 at 80 percent |
| Verification.InactiveInsurancePaysInFull | api/verification/index.js:86-93 | with inactive insurance a 200 answer covers nothing and charges the full price |
| Verification.VerifyAsWritten | api/verification/index.js:74-111 | the handler as written: an inherited object property name passes the 404 check and ends in the 500 catch; every other request is answered as by `Verify` |
| Verification.ConstructorIdIsServerError | api/verification/index.js:74-81 | the id "constructor" gets 500 from the handler as written but 404 from `Verify` |
| Medications.IdStep | api/medications/index.js:70-74 | an id filter keeps an entry iff its lower-cased id equals the lower-cased parameter |
| Medications.CategoryStep | api/medications/index.js:77-81 | a category filter keeps an entry iff the lower-cased categories are equal |
| Medications.SearchStep | api/medications/index.js:84-90 | a search filter keeps an entry iff the lower-cased term occurs in the lower-cased name or generic name |
| Medications.SelectIsConjunction | api/medications/index.js:67-90 | the three steps together equal one filter by the conjunction of the given parameters' conditions |
| Medications.SelectIsOrderedSelection | api/medications/index.js:67-90 | the result is a subsequence of the catalogue, and an entry is returned iff every given parameter matches it |
| Medications.NoParametersSelectsAll | api/medications/index.js:70-84 | with no truthy parameter the whole catalogue is returned |
| Medications.CatalogueIdsDistinct | api/medications/index.js:6-52 | the five catalogue ids are pairwise distinct, even after lower-casing |
| Medications.IdQueryReturnsAtMostOne | api/medications/index.js:6-74 | a non-empty id query returns at most one entry, whatever the other parameters |
| Medications.IdQueryIgnoresCase | api/medications/index.js:70-74 | id queries differing only in letter case return the same entries |
| Medications.View | api/medications/index.js:93-96 | formatting replaces the price by its formatted text and keeps every other field |
| Medications.Query | api/medications/index.js:67-96 | the answer lists the selected entries, in order, each formatted |
| Medications.CategoryQueryExample | api/medications/index.js:6-81 | the category "Pain Relief" selects Aspirin and Ibuprofen, in that order |
| Plans.SecondsToDays | api/plans/index.js:48 | a whole number of days in seconds is divided exactly by 86400 |
| Plans.View | api/plans/index.js:45-49 | a listed plan keeps its other fields; its price is formatted and its duration is in days |
| Plans.PlanTable | api/plans/index.js:6-31 | three plans in the order Basic, Standard, Premium at 60, 80 and 90 percent; each lasts 2,592,000 seconds and is active |
| Plans.ListPlans | api/plans/index.js:45-49 | the listing has the table's length and order, and each entry is that plan's view |
| Plans.ListedDurationIsThirtyDays | api/plans/index.js:11-48 | every listed plan lasts 30 days |
| Plans.PlanNamed | api/plans/index.js:6-31 | finds the table plan with a given name, or reports that there is none |
| Plans.PercentageTableAgrees | api/plans/index.js:9-25 | the plan table's percentages are those of the verification switch, and names outside the table get 0 |
| Web3.LoadLog | frontend/src/utils/web3.js:323-334 | the stored list; the empty list when nothing is stored, when the stored blob is empty, or when it does not parse |
| Web3.AppendToStorage | frontend/src/utils/web3.js:164-176 | the write touches only the transactions key |
| Web3.CountHash | frontend/src/utils/web3.js:175 | counts the records with a hash; 0 iff no record has it |
| Web3.AppendExtendsLog | frontend/src/utils/web3.js:157-176 | after a store, the log is the previous log plus exactly the new record at the end |
| Web3.AppendToUnreadableLogStartsFresh | frontend/src/utils/web3.js:164-176 | an absent or unparsable blob becomes a log of just the new record |
| Web3.AppendDoesNotDeduplicate | frontend/src/utils/web3.js:175 | storing a record raises the count of its hash by one, even when the hash is already present |
| Web3.StoringTwiceKeepsBoth | frontend/src/utils/web3.js:156-176 | storing the same hash twice leaves two records with it |
| Web3.ResolveAddress | frontend/src/utils/web3.js:18-24 | the result is empty iff neither storage nor memory holds an address |
| Web3.SetThenGet | frontend/src/utils/web3.js:11-24 | after setting an address, reading it back gives that address |
| Web3.StoredOverrides | frontend/src/utils/web3.js:18-24 | a stored address is read back whatever memory holds |
| Web3.ContractFor | frontend/src/utils/web3.js:128-138 | no wallet gives "MetaMask is not installed!"; with a wallet and no known address it gives "Contract address not set"; with a wallet, it fails iff no address is known; an in-memory address is used as is |
| Web3.AddressAfterContract | frontend/src/utils/web3.js:128-138 | the in-memory address after `getContract`: unchanged without a wallet or when memory holds one, otherwise the stored address; a successful lookup is built on it |
| Web3.NoInsurance | frontend/src/utils/web3.js:196-202 | the default status: no plan, inactive, dated now |
| Web3.FromChain | frontend/src/utils/web3.js:186-192 | dates are converted from seconds to milliseconds and the other fields are kept |
| Web3.InsuranceOrDefault | frontend/src/utils/web3.js:182-203 | never fails: any failure gives the default status, and active insurance only comes from a successful call |
| Web3.AvailableOrFalse | frontend/src/utils/web3.js:337-345 | true iff the call succeeds and answers true |
| Web3.ListPurchase | frontend/src/utils/web3.js:309-315 | amounts are formatted and the date is converted to milliseconds |
| Web3.HistoryOrEmpty | frontend/src/utils/web3.js:304-320 | any failure gives the empty list; otherwise every purchase is listed in order |
| Web3.Purchase | frontend/src/utils/web3.js:242-301 | a contract or submission failure writes nothing; after submission the record is written before confirmation; every error is rethrown behind the prefix |
| Web3.FailedSubmissionLeavesLog | frontend/src/utils/web3.js:244-260 | a failed submission fails the purchase and leaves the log unchanged |
| Web3.ConfirmationFailureKeepsRecord | frontend/src/utils/web3.js:250-259 | a confirmation failure fails the purchase, but the submitted record stays at the end of the log |
| Web3.Web3Session.constructor | frontend/src/utils/web3.js:5 | a fresh page holds no address in memory |
| Web3.Web3Session.SetContractAddress | frontend/src/utils/web3.js:11-15 | sets the address in memory and in storage |
| Web3.Web3Session.GetContractAddress | frontend/src/utils/web3.js:18-24 | adopts a stored address and returns the address now in memory |
| Web3.Web3Session.GetContract | frontend/src/utils/web3.js:128-138 | answers as `ContractFor`; the new in-memory address is `AddressAfterContract` |
| Web3.Web3Session.StoreTransaction | frontend/src/utils/web3.js:156-179 | returns the record stamped now; with a faithful codec the log grows by exactly that record |
| Web3.Web3Session.GetUserInsurance | frontend/src/utils/web3.js:182-203 | answers as `InsuranceOrDefault`; the in-memory address is left as `AddressAfterContract` says |
| Web3.Web3Session.IsMedicationAvailable | frontend/src/utils/web3.js:337-345 | answers as `AvailableOrFalse`; the in-memory address is left as `AddressAfterContract` says |
| Web3.Web3Session.GetMedicationPurchaseHistory | frontend/src/utils/web3.js:304-320 | answers as `HistoryOrEmpty`; the in-memory address is left as `AddressAfterContract` says |
| Web3.Web3Session.PurchaseInsurance | frontend/src/utils/web3.js:242-261 | outcome and storage as `Purchase`, with an insurance record and the insurance prefix; the in-memory address as `AddressAfterContract` |
| Web3.Web3Session.PurchaseMedication | frontend/src/utils/web3.js:282-301 | outcome and storage as `Purchase`; after a success the last log record is this purchase; the in-memory address as `AddressAfterContract` |
| Web3.Web3Session.Submit | frontend/src/utils/web3.js:243-260 | the body shared by both purchase functions: outcome and storage as `Purchase`, the in-memory address as `AddressAfterContract` |
| MedicationVerification.InsurancePurchases | frontend/src/components/MedicationVerification.jsx:48 | exactly the log's insurance purchases, kept in log order (a subsequence of the log); non-empty iff the log has one |
| MedicationVerification.InsertByTimestamp | frontend/src/components/MedicationVerification.jsx:52 | the stable insertion step: one element more, the same elements |
| MedicationVerification.SortByTimestampDesc | frontend/src/components/MedicationVerification.jsx:52 | the sort is a permutation |
| MedicationVerification.InsertKeepsDescending | frontend/src/components/MedicationVerification.jsx:52 | insertion keeps the list ordered most recent first |
| MedicationVerification.SortIsDescending | frontend/src/components/MedicationVerification.jsx:52 | the sorted list is ordered most recent first |
| MedicationVerification.SortHeadIsFirstLatest | frontend/src/components/MedicationVerification.jsx:52-55 | the head has the greatest timestamp, and every earlier record has a smaller one (ties go to the earliest appended) |
| MedicationVerification.LatestInsurancePurchase | frontend/src/components/MedicationVerification.jsx:47-55 | present iff the log has an insurance purchase; then it is the first-appended among the latest |
| MedicationVerification.ProjectStatus | frontend/src/components/MedicationVerification.jsx:58-69 | always active; starts at the record's time and ends 30 days after now |
| MedicationVerification.InsuranceFromTransactions | frontend/src/components/MedicationVerification.jsx:46-75 | present iff the log has an insurance purchase; then it is the projection of the latest one |
| MedicationVerification.ReconcileInsurance | frontend/src/components/MedicationVerification.jsx:77-107 | adopts the remote status iff it reports active; otherwise the log projection; otherwise "none"; active iff remote active or the log has a purchase |
| MedicationVerification.RemoteActiveOverridesLog | frontend/src/components/MedicationVerification.jsx:80-81 | an active remote status is adopted whatever the log holds |
| MedicationVerification.FailureTreatedAsInactive | frontend/src/components/MedicationVerification.jsx:82-105 | a failed call and an inactive answer give the same status |
| MedicationVerification.FallbackCoverage | frontend/src/components/MedicationVerification.jsx:177-208 | the plan percentage applies only with active insurance; covered + co-pay equals the price; uncovered means covered 0 and co-pay the price |
| MedicationVerification.FallbackLookup | frontend/src/components/MedicationVerification.jsx:166-208 | present iff the id is a demo medication; gives the table's name and price and the fallback coverage |
| MedicationVerification.FallbackAgreesWithVerification | frontend/src/components/MedicationVerification.jsx:30-36 | each demo medication is in the catalogue with the same name and price, and its fallback coverage equals the verification endpoint's answer for the same plan |
| MedicationVerification.Search | frontend/src/components/MedicationVerification.jsx:109-164 | an empty id stops at once; an id outside the demo table is rejected with no remote call; contract data is used iff available, details and coverage all succeed; otherwise the fallback is used; and the calls made are listed |
| MedicationVerification.PurchaseAmount | frontend/src/components/MedicationVerification.jsx:217 | the co-pay when covered, otherwise the original price |
| MedicationVerification.AmountDueNeverExceedsPrice | frontend/src/components/MedicationVerification.jsx:198-217 | with fallback coverage the amount due is the price less the covered share, never more than the price |
| MedicationVerification.RenderInsuranceStatus | frontend/src/components/MedicationVerification.jsx:246-272 | active iff the log has an insurance purchase or the held status is active; shows the held plan when active, else the plan of the first insurance record in log order |
| MedicationVerification.FirstInsuranceIsHead | frontend/src/components/MedicationVerification.jsx:255 | the first filtered record is the first insurance record of the log |
| MedicationVerification.RenderAgreesWithReconciledStatus | frontend/src/components/MedicationVerification.jsx:246-255 | once the held status is the reconciled one, the banner shows exactly that status |
| MedicationVerification.RenderShowsFirstNotLatest | frontend/src/components/MedicationVerification.jsx:52-55 | with no held status, a Basic purchase followed by a Premium one shows Basic, while the log projection gives Premium |
| MedicationVerification.VerificationPanel.constructor | frontend/src/components/MedicationVerification.jsx:12-18 | the initial state: empty id and error, nothing shown, not loading or purchasing |
| MedicationVerification.VerificationPanel.CheckInsuranceFromTransactions | frontend/src/components/MedicationVerification.jsx:46-75 | returns true iff the log has an insurance purchase, and then sets the projected status; otherwise the status is unchanged |
| MedicationVerification.VerificationPanel.FetchUserInsurance | frontend/src/components/MedicationVerification.jsx:77-107 | sets the reconciled status |
| MedicationVerification.VerificationPanel.HandleFallbackMedication | frontend/src/components/MedicationVerification.jsx:166-209 | shows the fallback lookup for a demo medication and changes nothing for other ids |
| MedicationVerification.VerificationPanel.HandleMedicationSearch | frontend/src/components/MedicationVerification.jsx:109-164 | the state after the search decision: the error text, what is shown and the loading flag, for each outcome |
| MedicationVerification.VerificationPanel.HandlePurchase | frontend/src/components/MedicationVerification.jsx:211-240 | does nothing without details and coverage; otherwise pays the amount due; clears the form on success and shows the doubly prefixed error on failure; the session's storage and in-memory address are as the purchase leaves them |

## Left out

- Floating point. `parseFloat`, `toFixed(6)` and the percentage display in the fallback path are not modelled. The fallback split uses the same truncating integer division as the verification endpoint, on wei.
- `ethers.utils.parseEther` / `formatEther`. Amounts stay in wei. Formatting is a `nat -> string` parameter in `Medications.View`, `Plans.View` and `Web3.ListPurchase`. The verification endpoint's 200 body (`Verification.CoverageReport`) keeps its three amounts in wei, unformatted, where the source passes them through `formatEther` (api/verification/index.js lines 98-100).
- Plans.SecondsToDays: JavaScript's `/` is float division. The model divides whole days only, which every stored duration is.
- Wallet and network functions: `isMetaMaskInstalled` becomes a boolean parameter. `isSepolia`, `switchToSepolia`, `connectWallet` and `getBalance` are not modelled: they only talk to the wallet.
- Contract calls and `tx.wait()`. These are foreign and asynchronous. Each is an answer-or-failure parameter, and so is `Date.now()`.
- `getAvailableInsurancePlans`, `getMedicationCoverage` and `getMedicationDetails`. They only rethrow remote failures. Their results enter the panel as parameters.
- The `ethers.Contract` construction in `getContract` is assumed to succeed, so its "Failed to get contract" error is not modelled.
- Text.Lower: `toLowerCase` is modelled over ASCII only. Letters outside 'A'..'Z' keep their case, so a Unicode query may compare differently than in the source.
- MedicationVerification.ProjectStatus: `endDate.setDate(now.getDate() + 30)` is local-time calendar arithmetic. The model adds a fixed 30 × 86,400,000 ms, which differs from the source by an hour across a daylight-saving change.
- Request and query fields are modelled as absent or a string. In the source an array-valued query parameter makes `toLowerCase` throw in the catalogue handler, which has no `catch`, and a missing request body throws into the verification handler's 500 `catch`. Neither path is modelled.
- Web3.LoadLog: the JSON codec is an abstract parse/serialize pair, and only round-trip faithfulness is assumed of it. A blob that parses to something other than a list counts as a parse failure. The source would then throw on `push`.
- A stored record of type "Insurance Purchase" without a `planType` shows the empty plan name, where the source shows `undefined`.
- MedicationVerification.SortByTimestampDesc: the source sorts the filtered copy in place with the engine's stable sort. The model sorts a sequence with a stable insertion sort. The in-place update and the engine's algorithm are not captured, only its result.
- React timing: `useEffect`, state batching and the stale `userInsurance` read in the fallback are not modelled. Each handler runs to completion on the state it starts from. `loading` and `purchasing` are modelled only in their final values.
- The outer `catch` of `handleMedicationSearch` is not modelled. Every remote failure is caught by an inner handler, and the fallback itself does not throw for the demo ids.
- Demo-table lookups in the panel use own keys only. Inherited property names such as "constructor", which the object lookup in the source also accepts, are not modelled there.
- The `confirm` dialog, the Etherscan link and `selectMedication` are not modelled: they are presentation only.
- HTTP plumbing is not modelled: CORS headers, OPTIONS, 405 answers, the `success` envelope fields and the 500 answer's message text.
- The Navbar, App, plan and history components and the deploy script are not modelled: they hold no decision logic of the core.

## Findings

| source | as written | input that shows it | evidently intended | confidence | as-written member | corrected member |
|---|---|---|---|---|---|---|
| api/verification/index.js:74-81 | `medications[medicationId]` is an object property lookup, so inherited names such as "constructor" pass the 404 check; reading `.price` then gives undefined, and the coverage computation throws into the 500 handler | `{medicationId: "constructor", userAddress: "0xa", contractAddress: "0xb"}` | an id that is not one of MED001..MED005 answers 404 "Medication not found" | not executed | Verification.VerifyAsWritten, Verification.ConstructorIdIsServerError | Verification.Verify |
