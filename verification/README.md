# Ecoponto+ disposal registration, modelled in Dafny

Ecoponto+ is a React Native app in which a user scans the QR code of a
recycling drop-off site (an *ecoponto*), picks a category and an item from a
material table, types a weight and registers the disposal. The model covers:

- the Register screen's state machine: `step`, `scannedData`,
  `selectedCategory`, `selectedMaterial`, `weight`, `isTorchOn`, the
  `isProcessingScan` latch and the retry alert of a rejected scan;
- the QR payload check: the `ecoponto+::` prefix and a `"::"` split into
  exactly three fields. The split follows JavaScript's string-separator split:
  matches are found left to right, they do not overlap, and empty pieces are
  kept;
- the shared material table, the Register screen's own copy of it, and the
  history lists' icon lookup with its default icon;
- the Home and Wallet screens' derived values: the first name, the balance
  fallback, the disposal count, and the three-entry recent activity against
  the full wallet list;
- the Login screen's blank-after-trim guards, the mapping from error code to
  alert, and the password-reset reply, which is the same whatever happens.

Layout:

- `wrappers.dfy`: `Option`.
- `alerts.dfy`: an alert's title and message.
- `js_string.dfy`: the JavaScript string operations used: `startsWith`,
  `split` and `trim`, with the model's own `IndexOf` and `Join` helpers,
  which define `split` and state its round trip.
- `materials.dfy`: the shared table.
- `icon_lookup.dfy`: `getIconForMaterial`.
- `dashboard.dfy`: the Home and Wallet values.
- `login.dfy`: the Login screen.
- `register_flow.dfy`: the Register screen as values. It holds the
  screen's copy of the table, the payload parser, one transition function
  per handler, event runs and the flow's invariant.
- `register_screen.dfy`: the Register screen as a class. Its fields are the
  screen's state variables, and it has one method per handler. Each method
  is proved to perform its transition from `register_flow.dfy` and to keep
  the invariant.

Facts about the code that the model keeps:

- Submitting a disposal computes nothing and writes nothing. It checks its
  guard, shows an alert and, on success, navigates back. The weight is never
  parsed.
- Cancel sets the step back to scanning and clears the latch, the category
  and the material. It keeps the site id, the weight and the torch.
- The shared table has 13 items. The Register screen's copy names its first
  item "Papéis/Papelão", while the shared table names it "Papéis e Papelão".
- The tab navigator hides the screen header (navigation/AppNavigator.js:42-43),
  so the header back button the screen installs is never drawn. Back comes
  only from the Android hardware button: in the form it undoes the latest
  selection or, with nothing selected, navigates back; while scanning the
  screen declines it and the navigator's own back action applies.
- The Register screen is a bottom tab. Navigating back switches away from the
  tab, but the screen stays mounted and keeps its state. After a successful
  submit the filled form, with the latch set, is still there when the user
  returns, and the same disposal can be submitted again.

## Model

| member | source | states |
|---|---|---|
| JsString.StartsWith | screens/RegisterScreen.js:194 | `startsWith`: the string begins with the prefix; defined by its body and used by `RegisterFlow.ParseScan` |
| JsString.IndexOf | screens/RegisterScreen.js:203 | helper that defines `split`: the result is -1 or a match position at or after the start, and no match lies before it |
| JsString.Split | screens/RegisterScreen.js:203 | a split always has at least one piece |
| JsString.SplitJoin | screens/RegisterScreen.js:203 | joining a split's pieces with the separator gives back the string, so nothing is lost and the pieces are in order |
| JsString.SplitPiecesFree | screens/RegisterScreen.js:203 | no piece of a split contains the separator |
| JsString.SplitFirst | screens/RegisterScreen.js:203 | a split cuts at the first occurrence of the separator |
| JsString.SplitNone | screens/RegisterScreen.js:203 | a string without the separator splits into itself alone |
| JsString.SplitHead | screens/HomeScreen.js:82 | the first piece is the longest prefix that holds no separator; the rest of the string is either empty or starts with a separator |
| JsString.Trim | screens/LoginScreen.js:33 | `trim`: removes the leading, then the trailing white space; its contract is stated by `TrimStart` and `TrimEnd` |
| JsString.IsBlank | screens/LoginScreen.js:33 | `!s.trim()`: the trimmed string is empty; characterised by `BlankIffAllWhitespace` |
| JsString.TrimStart | screens/LoginScreen.js:33 | removes exactly the leading white space: the result is a suffix, and it starts with a non-white-space character or is empty |
| JsString.TrimEnd | screens/LoginScreen.js:33 | removes exactly the trailing white space: the result is a prefix, and it ends with a non-white-space character or is empty |
| JsString.BlankIffAllWhitespace | screens/LoginScreen.js:33 | `!s.trim()` holds exactly when every character is JavaScript white space |
| Materials.Categories | constants/materials.js:5-48 | the shared table as written: its shape is stated by `CategoriesShape` and its names by `SharedItemNames` |
| Materials.NamesIndex | constants/materials.js:9-47 | proof helper: a list of items has one name per item, in item order |
| Materials.CategoriesShape | constants/materials.js:5-48 | there are five categories in display order, with 4, 3, 2, 1 and 3 items; none is empty |
| Materials.SharedItems | constants/materials.js:9-47 | flattening the table gives the categories' item lists in order |
| Materials.SharedItemNames | constants/materials.js:10-46 | the flattened item names are exactly these 13, in this order |
| Materials.NoItemIconNamed | constants/materials.js:10-46 | proof helper: no item uses any icon name outside the table's 13 item icon names |
| Materials.ItemNamesUnique | constants/materials.js:10-46 | there are 13 items, and no item name occurs twice in the whole table |
| Materials.ItemNameShapes | constants/materials.js:10-46 | proof helper: every item name has one of six lengths and starts with a capital letter, and none of 16 characters starts with 'C' |
| Materials.DistinctItemNames | constants/materials.js:10-46 | the 13 item names are pairwise different |
| Materials.IconsRenderable | components/CategoryIcon.js:9-17 | every category and item icon names one of the three libraries the icon component draws |
| IconLookup.GetIconForMaterial | screens/HomeScreen.js:52-58 | `getIconForMaterial`, the same on both screens (also screens/WalletScreen.js:63-71); its contract is stated by `LookupIsFlatSearch`, `LookupFirstMatch`, `LookupFallback` and `DefaultIffUnknown` |
| IconLookup.Find | screens/HomeScreen.js:54 | `find` gives nothing exactly when no item has the name; otherwise it gives an item of the list with that name |
| IconLookup.FindFirst | screens/HomeScreen.js:54 | `find` returns the item at the first index whose name matches |
| IconLookup.FindAppend | screens/HomeScreen.js:53-55 | searching a concatenation searches the first part, then the second |
| IconLookup.LookupIsFlatSearch | screens/HomeScreen.js:52-58 | the loop over categories with an early return is one search over all items in order, with the default when it fails |
| IconLookup.LookupFirstMatch | screens/HomeScreen.js:52-56 | the icon is that of the first item, in category order then item order, whose name is the material name |
| IconLookup.LookupFallback | screens/HomeScreen.js:57 | when no item has the name, the icon is the default leaf icon |
| IconLookup.LookupByUniqueName | screens/WalletScreen.js:63-71 | in the shared table any item's name gives that item's own icon |
| IconLookup.DefaultIffUnknown | screens/WalletScreen.js:63-71 | on the shared table the default icon comes back exactly when the name is none of the 13 item names |
| IconLookup.NotAnItemName | constants/materials.js:10-46 | proof helper: a name of another length, one not starting with a capital letter, or one of 16 characters starting with 'C' is no item name |
| IconLookup.CategoryNamesFallBack | screens/WalletScreen.js:63-71 | only items are searched: every one of the five category names falls back to the default icon |
| IconLookup.ExactItemNamesOnly | screens/WalletScreen.js:65 | examples of the exact comparison: "plásticos" and " Plásticos" fall back to the default icon |
| IconLookup.ItemNameHits | screens/HomeScreen.js:52-56 | "Plásticos" and "Pneus Usados" find their items' icons in different categories |
| Dashboard.FirstName | screens/HomeScreen.js:82 | the first word of the full name, or 'Usuário'; its contract is stated by `FirstNameSpec` |
| Dashboard.FirstNameSpec | screens/HomeScreen.js:82 | the greeting name is the name's longest leading run without a space; "Usuário" is used when the user or the name is missing, or when that run is empty |
| Dashboard.Balance | screens/HomeScreen.js:96 | the balance is `totalPoints` when present and 0 when the user or the field is missing |
| Dashboard.DisposalCount | screens/HomeScreen.js:107 | the "Descartes" card; its facts are stated by `RecentIsHeadOfWallet` |
| Dashboard.WalletEntries | screens/WalletScreen.js:117 | the wallet's list; its facts are stated by `RecentIsHeadOfWallet` |
| Dashboard.RecentActivity | screens/HomeScreen.js:114 | recent activity is the first min(3, n) entries, in order |
| Dashboard.RecentIsHeadOfWallet | screens/HomeScreen.js:107-114 | the "Descartes" count is the number of entries in the history; the wallet list (screens/WalletScreen.js:117) shows the whole history in order; recent activity is a prefix of it, and equals it exactly when there are at most 3 entries |
| Login.HandleLogin | screens/LoginScreen.js:32-38 | login is blocked with "Campos Vazios" exactly when a field is blank after trimming; otherwise sign-in gets both fields untrimmed |
| Login.SignInErrorAlert | screens/LoginScreen.js:50-59 | "auth/invalid-credential" gives "Erro de Login", "auth/invalid-email" gives "Formato Inválido", and any other code gives "Erro" |
| Login.SignInReply | screens/LoginScreen.js:38-61 | success shows nothing, and a failure shows its code's alert |
| Login.HandleForgotPassword | screens/LoginScreen.js:64-72 | a blank e-mail gives "E-mail Necessário" and no reset call; otherwise the reset gets the e-mail untrimmed |
| Login.ResetReply | screens/LoginScreen.js:73-89 | the alert after a reset request, for success and for failure; its contract is stated by `ResetReplyUniform` |
| Login.ResetReplyUniform | screens/LoginScreen.js:73-89 | success and every failure show the same alert, so whether an account exists is not revealed |
| Login.LoginBlockedIffWhitespace | screens/LoginScreen.js:33 | a field blocks login exactly when all of its characters are white space |
| Login.UntrimmedCredentials | screens/LoginScreen.js:33-38 | fields that each hold a character other than white space pass the guard, and sign-in receives them as typed, surrounding white space included |
| Login.SpacesOnlyBlocked | screens/LoginScreen.js:33-35 | a field of spaces alone is blank and blocks login |
| RegisterFlow.RegisterCategories | screens/RegisterScreen.js:33-77 | the Register screen's own copy of the table; how it differs from the shared table is stated by `RegisterCopyDiffers` |
| RegisterFlow.RegisterCopyDiffers | screens/RegisterScreen.js:33-77 | the Register copy equals the shared table except that its first item is named "Papéis/Papelão" instead of "Papéis e Papelão" |
| RegisterFlow.RegisterPaperNameFallsBack | screens/RegisterScreen.js:38 | a disposal recorded under "Papéis/Papelão" gets the default icon in the history lists, while "Papéis e Papelão" gets the paper icon |
| RegisterFlow.SharedPaperIcon | constants/materials.js:10 | the shared table's "Papéis e Papelão" is found with the newspaper icon |
| RegisterFlow.RegisterItemNamesNonEmpty | screens/RegisterScreen.js:289 | no item name in the Register copy is empty, so a selected material is always truthy |
| RegisterFlow.ParseScan | screens/RegisterScreen.js:194-213 | the payload check: invalid without the prefix, malformed unless the split gives three fields, else the site id; its contract is stated by `ParseScanIff` and `InvalidIffUnprefixed` |
| RegisterFlow.SplitTwoFields | screens/RegisterScreen.js:203 | a cleanly delimited id and third field split into exactly those two fields |
| RegisterFlow.TwoFieldsShape | screens/RegisterScreen.js:203-204 | a string that splits into two fields is those fields joined by "::", split cleanly |
| RegisterFlow.ParseAccepts | screens/RegisterScreen.js:194-216 | the prefix, a cleanly delimited id, "::" and a third field are accepted with that id |
| RegisterFlow.PrefixedFirstCut | screens/RegisterScreen.js:194-203 | in a prefixed payload the first cut is the prefix's own "::", and the first field is "ecoponto+" |
| RegisterFlow.ParseAcceptedShape | screens/RegisterScreen.js:203-213 | an accepted payload is the prefix, the site id, "::" and one more field |
| RegisterFlow.ParseScanIff | screens/RegisterScreen.js:194-213 | a payload is accepted with site id `id` exactly when it is the prefix, `id`, "::" and a third field, split cleanly |
| RegisterFlow.ScanRoundTrip | screens/RegisterScreen.js:194-216 | for fields s and t without ':', the payload "ecoponto+::"+s+"::"+t gives back site id s |
| RegisterFlow.InvalidIffUnprefixed | screens/RegisterScreen.js:194-201 | "QR Code Inválido" is chosen exactly when the payload is absent or lacks the prefix |
| RegisterFlow.ValidCodeExample | screens/RegisterScreen.js:203-213 | "ecoponto+::site42::v1" gives site id "site42" |
| RegisterFlow.InvalidCodeExamples | screens/RegisterScreen.js:194 | an unprefixed payload and a missing payload are both invalid |
| RegisterFlow.MissingFieldMalformed | screens/RegisterScreen.js:203-211 | a prefixed payload with only two colon-free fields is malformed |
| RegisterFlow.ExtraFieldMalformed | screens/RegisterScreen.js:203-211 | a prefixed payload with four colon-free fields is malformed |
| RegisterFlow.Inv | screens/RegisterScreen.js:94-321 | the flow's invariant: a material only under a category of the table and among its items, nothing selected while scanning, the form only for a scanned site with the latch set, the retry alert only while latched; shown to hold by `ReachableInv` |
| RegisterFlow.Back | screens/RegisterScreen.js:108-118 | `handleBackPress`; its contract is stated by `BackOneStep` and `BackUnwinds` |
| RegisterFlow.HardwareBack | screens/RegisterScreen.js:154-162 | the hardware back listener; its contract is stated by `HardwareBackMatchesBack` |
| RegisterFlow.ToggleTorch | screens/RegisterScreen.js:181-183 | `toggleTorch`: flips the torch; kept by `ApplyKeepsInv` |
| RegisterFlow.Scan | screens/RegisterScreen.js:186-217 | `handleBarCodeScanned`; its contract is stated by `LatchedScanIgnored`, `ScanLatches`, `RejectedScan` and `AcceptedScan` |
| RegisterFlow.DismissRetry | screens/RegisterScreen.js:198 | "Tentar Novamente": releases the latch; its contract is stated by `RetryRearms` |
| RegisterFlow.SelectCategory | screens/RegisterScreen.js:267 | a category button; its effect on a run is stated by `FormPath` |
| RegisterFlow.SelectMaterial | screens/RegisterScreen.js:289 | an item button; its effect on a run is stated by `FormPath` |
| RegisterFlow.TypeWeight | screens/RegisterScreen.js:314 | the weight field; its effect on a run is stated by `FormPath` |
| RegisterFlow.Submit | screens/RegisterScreen.js:220-228 | `handleSubmit`; its contract is stated by `SubmitGuard` and `ResubmitAfterSuccess` |
| RegisterFlow.Cancel | screens/RegisterScreen.js:321 | "Cancelar e Escanear Novamente"; its contract is stated by `CancelResets` |
| RegisterFlow.Available | screens/RegisterScreen.js:154-330 | which events can happen in each state: the camera always, the retry button only on its modal alert, the hardware back whenever that alert is closed, the form's controls only in the form and for the selection state that renders them; there is no header back, since the header is hidden |
| RegisterFlow.Apply | screens/RegisterScreen.js:108-321 | dispatches an event to its handler; an unconsumed hardware back navigates back; kept by `ApplyKeepsInv` |
| RegisterFlow.Run | screens/RegisterScreen.js:94-321 | the state after a sequence of events, continuing after navigating back because the tab stays mounted; stated by `RunKeepsInv` and `RunStep` |
| RegisterFlow.InitialInv | screens/RegisterScreen.js:94-105 | the screen mounts scanning, with the latch open and the invariant holding |
| RegisterFlow.ApplyKeepsInv | screens/RegisterScreen.js:108-321 | every handler whose control is on screen keeps the invariant: a material only under a category from the table, and one of that category's items |
| RegisterFlow.RunKeepsInv | screens/RegisterScreen.js:108-321 | any sequence of events keeps the invariant |
| RegisterFlow.ReachableInv | screens/RegisterScreen.js:94-321 | every state reachable from mounting satisfies the invariant |
| RegisterFlow.LatchedScanIgnored | screens/RegisterScreen.js:188-190 | while the latch is set, a scan changes nothing and shows nothing |
| RegisterFlow.ScanLatches | screens/RegisterScreen.js:188-192 | after any scan the latch is set, so the same scan again is ignored |
| RegisterFlow.RepeatedScansIgnored | screens/RegisterScreen.js:186-192 | after one scan, any number of further scans leave the state as it is |
| RegisterFlow.RejectedScan | screens/RegisterScreen.js:192-211 | a rejected payload shows its own alert and sets the latch and the retry alert; the step, site id, selections, weight and torch are unchanged |
| RegisterFlow.RetryOnlyRelease | screens/RegisterScreen.js:192-211 | while the retry alert stands, every event other than "Tentar Novamente" that can happen, scans included, leaves the state as it is, so the latch stays set |
| RegisterFlow.RetryBlocksRun | screens/RegisterScreen.js:192-211 | a whole run of events without "Tentar Novamente" leaves a state with the retry alert unchanged |
| RegisterFlow.RetryRearms | screens/RegisterScreen.js:198 | the retry button releases the latch, after which a scan is validated again and a valid one opens the form |
| RegisterFlow.AcceptedScan | screens/RegisterScreen.js:213-216 | an accepted payload turns the torch off, records the id, opens the form and leaves the latch set; nothing else changes |
| RegisterFlow.BackOneStep | screens/RegisterScreen.js:108-118 | back clears the material if there is one, else the category, else it navigates back; nothing else changes and the invariant holds |
| RegisterFlow.BackUnwinds | screens/RegisterScreen.js:108-118 | one back press per selection clears the draft without navigating, and the next press navigates back |
| RegisterFlow.HardwareBackMatchesBack | screens/RegisterScreen.js:154-162 | in the form the hardware back runs `handleBackPress` and is consumed; while scanning it changes nothing and is not consumed |
| RegisterFlow.CancelResets | screens/RegisterScreen.js:321 | cancel returns to scanning with the latch released and no selection; the site id, weight and torch are kept |
| RegisterFlow.SubmitGuard | screens/RegisterScreen.js:220-228 | submit shows "Erro" exactly when no material is selected or the weight is blank; otherwise it shows success and navigates back; the state never changes |
| RegisterFlow.LeaveKeepsState | screens/RegisterScreen.js:108-228 | only the hardware back and submit navigate back, and they leave the state as it was |
| RegisterFlow.ResubmitAfterSuccess | screens/RegisterScreen.js:220-228 | after a successful submit the form is unchanged, so any number of further submits succeed again with the same disposal |
| RegisterFlow.RunStep | screens/RegisterScreen.js:108-321 | an event whose control is on screen is handled, and the run goes on from the new state |
| RegisterFlow.OpeningScan | screens/RegisterScreen.js:186-216 | a first scan of a valid payload opens the form for its site id, with the torch off and the latch set, and the next three events run from that form |
| RegisterFlow.FormPath | screens/RegisterScreen.js:267-314 | in a fresh form, picking a category, one of its items and typing a weight fills exactly those fields |
| RegisterFlow.HappyPath | screens/RegisterScreen.js:186-289 | scanning a valid payload, picking a category, one of its items and a non-blank weight gives exactly that form, and submit then succeeds |
| RegisterFlow.HappyPathExample | screens/RegisterScreen.js:186-289 | the run "ecoponto+::site42::v1", first category, "Plásticos", "2,5" submits successfully |
| RegisterScreen.Screen.constructor | screens/RegisterScreen.js:94-105 | the screen mounts in the initial state, with the invariant holding |
| RegisterScreen.Screen.HandleBackPress | screens/RegisterScreen.js:108-118 | in the form, performs the one-step back on the fields and keeps the invariant; `OnBackPress` is its only caller |
| RegisterScreen.Screen.OnBackPress | screens/RegisterScreen.js:154-162 | runs the back in the form and consumes the event; while scanning it declines it without changing anything |
| RegisterScreen.Screen.ToggleTorch | screens/RegisterScreen.js:181-183 | flips the torch and nothing else |
| RegisterScreen.Screen.HandleBarCodeScanned | screens/RegisterScreen.js:186-217 | performs the scan transition on the fields, including the latch, and returns its alert |
| RegisterScreen.Screen.DismissAlert | screens/RegisterScreen.js:198 | closes the retry alert and releases the latch |
| RegisterScreen.Screen.SelectCategory | screens/RegisterScreen.js:267 | sets the category and nothing else |
| RegisterScreen.Screen.SelectMaterial | screens/RegisterScreen.js:289 | sets the material and nothing else |
| RegisterScreen.Screen.SetWeight | screens/RegisterScreen.js:314 | sets the weight text and nothing else |
| RegisterScreen.Screen.HandleSubmit | screens/RegisterScreen.js:220-228 | leaves the fields unchanged and returns the submit guard's alert and whether it navigates back |
| RegisterScreen.Screen.Cancel | screens/RegisterScreen.js:321 | performs the cancel transition on the fields and keeps the invariant |

## Left out

- Points, pricing, rounding and persistence: the code has none of them. Submit only logs and alerts, and the weight is never parsed.
- The `console.log` calls are not modelled.
- The camera permission request and the permission screens are not modelled. So are `CameraView`, the torch rendering, the scanner overlay geometry and the styles.
- The Firestore listeners on the Home and Wallet screens are left out. The user document and the ordered history are inputs.
- Date formatting with `toLocaleDateString` is not modelled.
- The Firebase auth calls are not modelled. Their outcome is an input: success, or an error code.
- MapScreen is not part of this model. Neither are navigation, the dynamic header and its back button (which the hidden tab header never shows), the tab bar, the other screens or the styled components.
- The unused `MATERIAL_OPTIONS` list is left out.
- Asynchronous interleaving is left out. The latch is modelled as one field updated by handlers that run one at a time.
- Strings are sequences of Unicode characters, not UTF-16 code units. This makes no difference to the ASCII separators used here.
- Dashboard.Balance: `totalPoints` is taken to be an integer, and `|| 0` turns only 0 or a missing value into 0. Other values that `|| 0` passes through or replaces are not modelled: a truthy non-integer such as the string "120" or a fraction is shown as it is, and NaN, `null`, `false` or `""` are shown as 0.
- RegisterScreen.Screen.OnBackPress: the navigator's own back action, which switches away from the tab when the event is not consumed, is shown only in `RegisterFlow.Apply`. The method returns `leave == false` in that case.
- Navigation itself is an effect: `leave` says that the screen navigates back, and the model does not follow the user to another tab. Because the tab stays mounted, a run of events goes on from the same state.
- The header title and the "Voltar" label that depend on the step are left out, as display only.
