# Raivo OTP: keyboard constraint and archive import, modelled in Dafny

This project models two pieces of the Raivo OTP iOS app.

- **Keyboard constraint** (`UIViewController` extension). A process-wide table,
  `KeyboardStates.visible`, records per identifier whether the on-screen keyboard is up. An
  absent entry means hidden. The "keyboard will show" and "keyboard will hide" handlers form a
  two-state machine. Each handler writes the new flag first and then returns early on a
  repeated event. A real show sets the view controller's `additionalSafeAreaInsets.bottom` to
  the keyboard height less the view's bottom safe-area inset. A real hide sets it to zero.
  `detachKeyboardConstraint` runs a hide with no notification for the sender's identifier.
- **Archive import** (`DataImportFeature`). `importArchive` checks the password, extracts
  `raivo-otp-export.json` from the archive and decodes it as a list of text-only records. It
  then writes one `Password` per record whose realm lookup succeeds, each in its own write. Every stage has its own failure
  message, and nothing is written before the last stage.

Files:

- `optional.dfy`: Swift optionals (`Option`, `??` as `GetOr`).
- `swift_conversions.dfy`: Swift's `Int(String)` and `Bool(String)`. `ParseInt` folds in one
  digit at a time and fails on the first step that overflows 64-bit `Int`, as the standard
  library does. Its contract ties it to a reference reading of the text. `FormatInt` is its
  inverse.
- `keyboard_constraint.dfy`: the handlers as pure transitions `WillShow` and `WillHide` over a
  `Screen` (the visibility table and the inset), runs of events, and the classes
  `KeyboardStates` and `ViewController`. Their methods are proved to perform exactly those
  transitions.
- `data_import.dfy`: the record types, the foreign calls as an `Environment` of oracles, the
  pure outcomes of `importNewPasswords` and `importArchive`, and the `PasswordStore` class.
  The import methods append to the store and are proved equal to those outcomes.

Notes on behaviour:

- A detach resets the inset only when the sender's identifier was visible; otherwise the inset
  is left alone. `DetachAfterAnyRun` shows that the inset is still zero after a detach, for any
  history of events, provided the view controller started with no extra inset and is the only
  one handling that identifier.
- The visibility table is keyed by the sender's identity alone. Two view controllers attached
  with the same sender share one entry, and then a detach can leave an inset applied:
  `SharedIdentifierLeavesInset` builds such a run from the classes themselves.
- The extraction folder is fixed (`raivo-otp-export` in the caches directory), and unzipping
  overwrites into it. It is deleted only after a successful read, and the delete call is given
  a `file://` URL string as a path, so it most likely deletes nothing. A later archive that
  unzips but lacks `raivo-otp-export.json` can therefore find a stale copy from an earlier
  import and import that instead of failing. The unzip oracle returns the folder as it is after
  unzipping, stale files included, so the model admits this. "Missing entry" below means
  missing from that folder, not from the archive.

## Model

| member | source | states |
|---|---|---|
| `KeyboardConstraint.WillShow` | Raivo/Extensions/ConstrainToKeyboardExtension.swift:41-70 | The identifier is marked visible and no other entry changes, whatever the payload. A show while already visible, or with no payload or any missing field, leaves the inset and schedules no animation. A show from hidden with a full payload sets the inset to exactly height minus the bottom safe-area inset (not clamped) and animates with the payload's duration and curve. |
| `KeyboardConstraint.HideAnimation` | Raivo/Extensions/ConstrainToKeyboardExtension.swift:94-100 | The hide animation uses the notification's duration when present, else 0.6, and the notification's curve when present, else the empty option set. |
| `KeyboardConstraint.WillHide` | Raivo/Extensions/ConstrainToKeyboardExtension.swift:85-102 | The identifier is marked hidden and no other entry changes. If it was already hidden or absent, the inset is untouched and nothing animates; otherwise the inset becomes 0 and the hide animation runs. |
| `KeyboardConstraint.RunKeepsInsetFollowingKeyboard` | Raivo/Extensions/ConstrainToKeyboardExtension.swift:41-102 | Over any sequence of show and hide events for one identifier, "hidden implies zero inset" is preserved. The sequence must be every event touching that identifier's entry, so this holds when a single view controller handles the identifier. |
| `KeyboardConstraint.RunKeepsOtherIdentifiers` | Raivo/Extensions/ConstrainToKeyboardExtension.swift:41-92 | Events for one identifier never change another identifier's entry in the shared table, and they create the identifier's own entry. |
| `KeyboardConstraint.RunVisibility` | Raivo/Extensions/ConstrainToKeyboardExtension.swift:41-92 | After a non-empty run, the keyboard counts as visible exactly when the last event was a show. |
| `KeyboardConstraint.RepeatedShowsAnimateOnce` | Raivo/Extensions/ConstrainToKeyboardExtension.swift:42-48 | In a run of consecutive shows, every show after the first schedules no animation and leaves the inset unchanged. |
| `KeyboardConstraint.DetachAfterAnyRun` | Raivo/Extensions/ConstrainToKeyboardExtension.swift:34-39 | For a view controller that started with no extra inset and is the only one handling the identifier, the hide that detach runs leaves the identifier hidden and the inset at 0, after any history of events. |
| `KeyboardConstraint.SharedIdentifierLeavesInset` | Raivo/Extensions/ConstrainToKeyboardExtension.swift:19-39 | Two view controllers attached with the same sender share one table entry. After a show reaches both and both detach, the first still has its 300-point inset and the entry is hidden. |
| `KeyboardConstraint.KeyboardStates.constructor` | Raivo/Extensions/ConstrainToKeyboardExtension.swift:18-20 | The visibility table starts empty. |
| `KeyboardConstraint.ViewController.AttachKeyboardConstraint` | Raivo/Extensions/ConstrainToKeyboardExtension.swift:22-32 | Attaching yields one show listener and one hide listener. Both are registered under the view controller's own identity and both update the sender's identifier. |
| `KeyboardConstraint.ViewController.Deliver` | Raivo/Extensions/ConstrainToKeyboardExtension.swift:25-31 | A listener runs only on the view controller that registered it. A delivered notification runs the show or hide transition for the listener's captured identifier. The safe-area inset is the one current at delivery. |
| `KeyboardConstraint.ViewController.DetachKeyboardConstraint` | Raivo/Extensions/ConstrainToKeyboardExtension.swift:34-39 | Detach performs the hide transition with no notification for the sender's identifier. The identifier ends hidden. If it was visible, the inset becomes 0 and the animation uses 0.6 and no options. |
| `KeyboardConstraint.ViewController.KeyboardWillShow` | Raivo/Extensions/ConstrainToKeyboardExtension.swift:41-83 | The table and the inset fields change exactly as `WillShow` says, and the returned animation is the one it schedules. |
| `KeyboardConstraint.ViewController.KeyboardWillHide` | Raivo/Extensions/ConstrainToKeyboardExtension.swift:85-115 | The table and the inset fields change exactly as `WillHide` says, and the returned animation is the one it schedules. |
| `SwiftConversions.ParseInt` | Raivo/Features/DataImportFeature.swift:108-111 | `Int(text)` succeeds exactly when the text is an optional sign followed by one or more ASCII digits, with nothing else, and the value fits in 64 bits. The result is then that value. |
| `SwiftConversions.AccumulateCorrect` | Raivo/Features/DataImportFeature.swift:108-111 | The digit-by-digit, overflow-checked loop gives the reference value of the whole literal, or fails exactly when the value is out of range or a non-digit follows. |
| `SwiftConversions.ParseFormatRoundTrip` | Raivo/Features/DataImportFeature.swift:108-111 | Reading the decimal text of any 64-bit `Int` gives back that `Int`. |
| `SwiftConversions.ParseIntExamples` | Raivo/Features/DataImportFeature.swift:108-111 | "6", "30", "+7" and "-42" parse to their values; "abc", "", "-", " 6" and "6.0" do not parse. |
| `SwiftConversions.ParseBool` | Raivo/Features/DataImportFeature.swift:114 | `Bool(text)` succeeds only for the exact texts "true" and "false", and gives true exactly for "true". |
| `SwiftConversions.ParseBoolRoundTrip` | Raivo/Features/DataImportFeature.swift:114 | Reading the text of a `Bool` gives back that `Bool`. |
| `DataImport.ReadFileFromZip` | Raivo/Features/DataImportFeature.swift:40-81 | The result is nil when there is no caches directory, when unzipping into the fixed `raivo-otp-export` folder fails, or when the entry is missing from that folder after unzipping. Otherwise it is the read result of the entry, which is nil on a read error. |
| `DataImport.ToPassword` | Raivo/Features/DataImportFeature.swift:99-114 | The seven text fields are copied unchanged. `digits`, `timer` and `counter` are the value of their text when it is an in-range decimal literal, else 0. `pinned` is true exactly for the text "true". `syncing` is true and `synced` is false. |
| `DataImport.ImportedAreUnsynced` | Raivo/Features/DataImportFeature.swift:99-123 | Every record the import loop writes has `syncing` true and `synced` false. |
| `DataImport.AvailablePositions` | Raivo/Features/DataImportFeature.swift:116-122 | The positions of the items whose realm lookup succeeds are ascending and in bounds, and every such position is among them. |
| `DataImport.ImportedAreAvailableItems` | Raivo/Features/DataImportFeature.swift:99-123 | The loop writes exactly the items whose realm lookup succeeds, in list order. The i-th record is built from the item at the i-th such position, with that position's key. |
| `DataImport.ImportedCount` | Raivo/Features/DataImportFeature.swift:99-123 | The loop writes exactly as many records as there are items whose realm lookup succeeds, so at most one per item. It writes exactly one per item when every lookup succeeds. |
| `DataImport.ImportedContainsAvailable` | Raivo/Features/DataImportFeature.swift:116-122 | Every item whose realm lookup succeeds is written. |
| `DataImport.ImportedInListOrder` | Raivo/Features/DataImportFeature.swift:99-123 | When every realm lookup succeeds, the k-th record written is built from the k-th item with the k-th primary key. |
| `DataImport.AppendImported` | Raivo/Features/DataImportFeature.swift:99-125 | Appending the loop's records to a store grows it by exactly the available items, in list order and all unsynced. When every lookup succeeds, it grows by one record per item, in order. |
| `DataImport.FailureWritesNothing` | Raivo/Features/DataImportFeature.swift:128-145 | A failed import returns one of its four fixed messages and leaves the store as it was. A successful import only appends. |
| `DataImport.PasswordCheckedFirst` | Raivo/Features/DataImportFeature.swift:130-132 | A wrong password gives "Password incorrect" with nothing written. The outcome does not depend on the file system, the archive content, the decoder or the store. |
| `DataImport.UnreadableArchive` | Raivo/Features/DataImportFeature.swift:134-137 | With a valid password and an unreadable archive, the import returns "Not a Raivo OTP export archive" and writes nothing. |
| `DataImport.UndecodableEntry` | Raivo/Features/DataImportFeature.swift:87-93 | With a valid password and a read entry that does not decode, the import returns "Could not parse JSON data" and writes nothing. |
| `DataImport.EmptyEntry` | Raivo/Features/DataImportFeature.swift:95-97 | With a valid password and a read entry that decodes to an empty list, the import returns "Given JSON data is empty" and writes nothing. |
| `DataImport.SuccessfulImport` | Raivo/Features/DataImportFeature.swift:83-145 | The import succeeds (returns nil) exactly when the password is valid, the entry is read and it decodes to a non-empty list, whatever the realm lookups do. The store then grows by exactly one record per item whose realm lookup succeeds, in list order and all unsynced. Items without a realm are skipped silently. |
| `DataImport.NumericFallback` | Raivo/Features/DataImportFeature.swift:108-110 | A record with `digits` "abc" is stored with 0 digits, and `timer` "30" is stored as 30. |
| `DataImport.GitHubScenario` | Raivo/Features/DataImportFeature.swift:128-145 | A valid archive holding one GitHub record imports with no message. The store then holds one record with issuer "GitHub", 6 digits, a 30-second timer, counter 0 and not pinned. |
| `DataImport.PasswordStore.Add` | Raivo/Features/DataImportFeature.swift:117-121 | One write appends exactly one record to the store. |
| `DataImport.ImportNewPasswords` | Raivo/Features/DataImportFeature.swift:83-126 | A decode failure gives "Could not parse JSON data" and an empty list gives "Given JSON data is empty", neither writing anything. Otherwise the result is nil and the store becomes its old records followed by the imported ones. |
| `DataImport.ImportArchive` | Raivo/Features/DataImportFeature.swift:128-145 | The message and the new store are exactly those of the three-stage chain: password check, then entry read, then decode and persist. |

## Left out

- UIKit animation: the `UIView.animate` call, `layoutIfNeeded` and the `ui { }` main-thread dispatch are not modelled. The handlers return the animation they would schedule (duration and raw options) instead.
- The `#available(iOS 11.0, *)` check: iOS 11 or later is assumed, so the safe-area inset is always subtracted.
- `NotificationHelper.listen` and `discard`: their source is not part of this model. Attach returns the listeners it would register, and detach does not model their removal or the replacement on re-subscription.
- `id(...)` object-identity hashing: identifiers are plain strings.
- The safe-area inset: `ViewController.safeAreaBottom` is taken as given at each show. In UIKit `view.safeAreaInsets.bottom` already includes the extra inset the handlers set, and that dependence is not modelled.
- CGFloat and Double arithmetic: heights, insets and durations are reals, with no floating-point rounding.
- The animation curve is its raw unsigned value, and the empty option set is raw value 0.
- `userInfo` values of the wrong type: they are treated the same as missing ones (`None`).
- SSZipArchive, FileManager, JSONDecoder and logging: foreign library calls, given to the model as oracles in `Environment`. The unzip oracle returns the destination folder's files by path.
- `deleteFolder` and the unused `deleteFile`: the cleanup has no effect within one import. Across imports it matters, because the fixed folder may keep an earlier export file. The model leaves the folder's contents to the unzip oracle and does not track them from one import to the next.
- `Password.getNewPrimaryKey()`: its source is not part of this model. Keys come from an oracle indexed by item position, and nothing is claimed about their uniqueness.
- `RealmHelper.shared.getRealm()`: an oracle per item position. A nil realm skips the item silently.
- Realm itself, `autoreleasepool`, and the crash of `try!` on a failing write: the store is a list of records, and a write always succeeds.
- Concurrency: two imports at once share the fixed extraction folder. The model has one caller at a time.
