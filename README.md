# XKit / EDKit core, modelled in Dafny

A model of the core of the XKit/EDKit Swift toolkit, with proofs about it. The core is:

- **The reactive state container** (`StateObservable`, EDKit). An owner object has two
  publishers, "will change" and "did change", each behind an `isEnabled` gate; both are created
  the first time they are used. Writing a `@State` or `@EquatableState` property notifies the
  property's own subjects and the owner's publishers in a fixed order.
  `performBatchStateUpdates` turns any number of writes into one owner-level will/did pair.
  Everything subscribers observe is recorded, in order, in the owner's `trace`.
- **The paging data managers.** There are two:
  - XKit's (`XKitPaging`) tracks `data`, `canLoadMore`, `currentPage`, `isEndOfData` and `status`.
    It throws away answers to requests that are no longer current.
  - EDKit's older one (`EDKitPaging`) has no such guard. It sends begin/end loading signals instead
    of keeping a status.

  Both are classes whose observable properties are state container fields. The data provider is
  the environment:
  - every request is appended to `requests` together with the handle the provider returned;
  - every cancelled handle is appended to `cancelledHandles`;
  - the provider's later answer arrives through an explicit `Complete(request, result)`.

  `PagingComparison` states what the two managers share, and shows the concrete runs where they
  differ.
- **Password scoring** (`PasswordStrength`): `calculateScore`, `removeInsert`, `getClass` and the
  thresholds of `checkPasswordStrength`.
- **Undo/redo** (`UndoRedo`): two stacks of closure pairs, changed in place.
- **Text component splitting** (`TextComponentParser`): the segmentation of a text into plain
  components and matched components.
- **Logging** (`Logs`):
  - the logger registry and the dispatch of an item to every registered logger;
  - `ConsoleLogger`'s filter and its mapping to OS log levels;
  - `DefaultLogFormatter`'s line format.
- **`TriState`** (`TriStates`) and **`Once`** (`Once`). `Once.execute` exists in XKit and in EDKit;
  the two copies have the same logic.

Modelling choices:

- A task identifier (`UUID()` in the source) is a fresh natural number taken from a counter.
- Whether an error is a cancellation (`Error.isCancelled`) is a function the manager is given.
- Whether the combined regular expression compiles, and the matches it finds, are inputs to the
  parser.
- Characters are classified as ASCII: `A`–`Z` are upper case, `a`–`z` lower case and `0`–`9`
  digits. Every other character counts as a symbol.
- The lock of `Once` and the work closures become `Acquire`, `Release` and `Work(id)` events.

Where an informal description of the password code disagrees with the code, the model follows the
code. The "even test" of `removeInsert` builds its result from the characters at odd indices below
`n - 1`. For an even length that drops the last character, which differs from the example given in
the comment at `EDKit/Classes/PasswordStrengthMeter.swift:152`.

## Model

| member | source | states |
|---|---|---|
| StateObservable.Publisher.constructor | EDKit/Classes/StateObservable.swift:68 | a new publisher is enabled |
| StateObservable.ObservableObject.constructor | EDKit/Classes/StateObservable.swift:117-120 | an owner starts with no publishers, is not batching, and has observed nothing |
| StateObservable.ObservableObject.StateWillChange | EDKit/Classes/StateObservable.swift:99-106 | the first access creates an enabled publisher and stores it; every later access returns that same publisher; nothing else changes |
| StateObservable.ObservableObject.StateDidChange | EDKit/Classes/StateObservable.swift:108-115 | the same lazy, stable creation, for the did-change publisher |
| StateObservable.ObservableObject.SendStateWillChange | EDKit/Classes/StateObservable.swift:78-82 | a send reaches subscribers exactly when the publisher is enabled; a disabled one records nothing; the gate is not changed |
| StateObservable.ObservableObject.SendStateDidChange | EDKit/Classes/StateObservable.swift:78-82 | the same gate, for the did-change publisher |
| StateObservable.SetStepsOrder | EDKit/Classes/StateObservable.swift:238-246 | one assignment stores once; every notification before the store is a will-change and every one after it a did-change; both subjects carry the new value; the owner's publishers fire once each outside a batch and never inside one |
| StateObservable.ObservableObject.SetState | EDKit/Classes/StateObservable.swift:238-246 | every `@State` assignment, an equal value included, appends the five steps (field will, owner will, store, field did, owner did); the did-change subject ends up holding the stored value |
| StateObservable.ObservableObject.SetEquatableState | EDKit/Classes/StateObservable.swift:284-297 | an equal value is stored and nothing is observed; a different value is announced exactly as by `@State` |
| StateObservable.NewStateField | EDKit/Classes/StateObservable.swift:227-232 | the did-change subject is seeded with the initial value, which is also the stored value |
| StateObservable.ObservableObject.BeginBatchStateUpdates | EDKit/Classes/StateObservable.swift:122-130 | a nested batch is a precondition violation; otherwise one owner will-change is observed, after which both publishers are disabled and the batching flag is set |
| StateObservable.ObservableObject.EndBatchStateUpdates | EDKit/Classes/StateObservable.swift:134-139 | the batching flag is cleared, both publishers are enabled again, and one owner did-change is observed |
| StateObservable.ObservableObject.PerformBatchStateUpdates | EDKit/Classes/StateObservable.swift:122-140 | a batch of assignments to a `@State` property is observed as one owner will-change, then each assignment's field-level steps with no owner steps, then one owner did-change; the property ends with the last value; both gates end enabled |
| StateObservable.BatchedSetStepsCounts | EDKit/Classes/StateObservable.swift:127-132 | inside a batch, n assignments produce n field will-changes, n stores, n field did-changes and no owner notification |
| StateObservable.BatchOfSetsNotifiesOwnerOnce | EDKit/Classes/StateObservable.swift:122-140 | however many assignments a batch makes, its owner will/did publishers fire exactly once each, will-change first and did-change last |
| StateObservable.StateObjectBox.constructor | EDKit/Classes/StateObservable.swift:153-155 | a new box is bound to no context and holds no forwarding subscriptions |
| StateObservable.StateObjectBox.Bind | EDKit/Classes/StateObservable.swift:157-182 | binding to the context already bound changes nothing; any other context replaces it and adds one pair of forwarding subscriptions |
| XKitPaging.PagingDataManager.constructor | XKit/PagingDataManager.swift:37-70 | a new manager has no data, cannot load more, has no page, has not reached the end, is idle, and has made no request |
| XKitPaging.PagingDataManager.IsDataEmpty | XKit/PagingDataManager.swift:52-54 | true exactly when `data` is empty |
| XKitPaging.PagingDataManager.SetData | XKit/PagingDataManager.swift:37-38 | `data` is a `@State` property: an assignment is always observed |
| XKitPaging.PagingDataManager.SetCanLoadMore | XKit/PagingDataManager.swift:40-41 | `canLoadMore` is an `@EquatableState` property: an assignment is observed only when the value changes |
| XKitPaging.PagingDataManager.SetCurrentPage | XKit/PagingDataManager.swift:43-44 | `currentPage` is `@EquatableState` |
| XKitPaging.PagingDataManager.SetIsEndOfData | XKit/PagingDataManager.swift:46-47 | `isEndOfData` is `@EquatableState` |
| XKitPaging.PagingDataManager.SetStatus | XKit/PagingDataManager.swift:49-50 | `status` is `@State` |
| XKitPaging.PagingDataManager.LoadData | XKit/PagingDataManager.swift:73-168 | a fresh task id becomes current before anything else, so every earlier request is stale afterwards, even when the load is rejected; a loadMore while `canLoadMore` is false returns false and changes no property, handle or request; any other load returns true; it makes the per-action assignments and sets `status = loading`; it cancels the previous handle; it records the request with the chosen page; it may be called inside a caller's batch, whose flag it keeps, and its notifications are those of that batch state |
| XKitPaging.PagingDataManager.StartLoading | XKit/PagingDataManager.swift:82-125 | an accepted load makes the per-action assignments, then the `loading` status, then the request |
| XKitPaging.PagingDataManager.PrepareProperties | XKit/PagingDataManager.swift:82-110 | the assignments made before the page is chosen, for each action; the page is left untouched |
| XKitPaging.PagingDataManager.PrepareClearAndRefresh | XKit/PagingDataManager.swift:84-94 | clearAndRefresh assigns `data = []`, `canLoadMore = false`, `isEndOfData = false`, in that order |
| XKitPaging.PagingDataManager.PrepareRefresh | XKit/PagingDataManager.swift:96-103 | refresh assigns `canLoadMore = !isEndOfData && !data.isEmpty`, then `isEndOfData = false` |
| XKitPaging.PagingDataManager.PrepareLoadMore | XKit/PagingDataManager.swift:105-109 | loadMore assigns `canLoadMore = false` |
| XKitPaging.PagingDataManager.IssueRequest | XKit/PagingDataManager.swift:112-125 | the page is the start page, or `currentPage + 1` for a loadMore with a current page; the previous handle, if any, is appended to the cancelled handles; the only trace steps are those of `status = loading`; the provider's handle becomes current |
| XKitPaging.PreloadEffect | XKit/PagingDataManager.swift:82-124 | what an accepted load leaves before the answer arrives: clearAndRefresh empties the data and clears both flags; refresh keeps the data, sets `canLoadMore` to (not at end and data loaded), and clears the end flag; loadMore disables load-more; the page is untouched; the status is `loading` |
| XKitPaging.PagingDataManager.Complete | XKit/PagingDataManager.swift:125-165 | a completion of a stale request changes nothing; a current one clears the handle and makes the assignments for its result |
| XKitPaging.PagingDataManager.CompleteWithData | XKit/PagingDataManager.swift:131-145 | the success branch makes its five assignments in the source's order |
| XKitPaging.PagingDataManager.CompleteWithError | XKit/PagingDataManager.swift:148-161 | a cancellation error makes no assignment; any other error makes the clearing assignments, or only the `canLoadMore` one, and then sets the failure status |
| XKitPaging.SuccessEffect | XKit/PagingDataManager.swift:131-145 | on success, refresh-type loads replace the data and loadMore appends to it; the requested page becomes current; `isEndOfData` is the provider's flag and `canLoadMore` its negation; the status is `success` |
| XKitPaging.FailureEffect | XKit/PagingDataManager.swift:148-161 | a cancellation changes and notifies nothing, leaving `loading`; with `clearDataWhenFailure` every property empties; otherwise only `canLoadMore = !isEndOfData && !data.isEmpty`; either way the status is `failure(error)` |
| XKitPaging.NextPageAfterSuccess | XKit/PagingDataManager.swift:112-115 | after a successful load of page p, loadMore asks for page p + 1 and the refresh-type actions ask for the start page |
| XKitPaging.PagingDataManager.CancelCurrentLoadRequest | XKit/PagingDataManager.swift:170-173 | the task id is cleared, so every request is stale; the current handle is cancelled; no property changes |
| XKitPaging.PagingDataManager.Reset | XKit/PagingDataManager.swift:175-184 | the request in flight is cancelled and made stale; in one batch, every property returns to its initial value |
| XKitPaging.PagingDataManager.ResetProperties | XKit/PagingDataManager.swift:178-182 | the five assignments of `reset`, in the source's order |
| XKitPaging.ResetEffect | XKit/PagingDataManager.swift:175-184 | `reset` leaves the initial property values, whatever they were before |
| XKitPaging.ResetNotifiesOwnerOnce | XKit/PagingDataManager.swift:175-184 | `reset` fires the owner's publishers once each, will first and did last, while the subjects of `data` and `status` still see their assignments |
| XKitPaging.BatchedNotificationsAreSilent | XKit/PagingDataManager.swift:176-183 | assignments made inside a batch never reach the owner's publishers |
| EDKitPaging.PagingDataManager.constructor | EDKit/Classes/PagingDataManager.swift:30-66 | a new manager has no data, cannot load more, has no page, has not reached the end, has sent no signal and made no request |
| EDKitPaging.PagingDataManager.IsDataEmpty | EDKit/Classes/PagingDataManager.swift:42-44 | true exactly when `data` is empty |
| EDKitPaging.PagingDataManager.SetData | EDKit/Classes/PagingDataManager.swift:30-31 | `data` is `@State` |
| EDKitPaging.PagingDataManager.SetCanLoadMore | EDKit/Classes/PagingDataManager.swift:33-34 | `canLoadMore` is `@EquatableState` |
| EDKitPaging.PagingDataManager.SetCurrentPage | EDKit/Classes/PagingDataManager.swift:36-37 | `currentPage` is `@EquatableState` |
| EDKitPaging.PagingDataManager.SetIsEndOfData | EDKit/Classes/PagingDataManager.swift:39-40 | `isEndOfData` is `@EquatableState` |
| EDKitPaging.PagingDataManager.LoadData | EDKit/Classes/PagingDataManager.swift:68-154 | a loadMore while `canLoadMore` is false returns false, changes nothing and sends no signal; any other load returns true, makes the per-action assignments, cancels the previous handle, sends `didBeginLoading` exactly once, and records the request with the chosen page; it may be called inside a caller's batch, whose flag it keeps |
| EDKitPaging.PagingDataManager.PrepareProperties | EDKit/Classes/PagingDataManager.swift:75-103 | the per-action assignments, the same as XKit's without the status |
| EDKitPaging.PagingDataManager.IssueRequest | EDKit/Classes/PagingDataManager.swift:105-118 | page choice as in XKit; the previous handle is cancelled and cleared; one begin signal; the provider's handle becomes current |
| EDKitPaging.PreloadEffect | EDKit/Classes/PagingDataManager.swift:75-103 | the property values an accepted load leaves, per action |
| EDKitPaging.PagingDataManager.Complete | EDKit/Classes/PagingDataManager.swift:118-151 | any completion of any request made so far is applied, whatever happened since; it clears the handle; a cancellation error sends no end signal, every other result sends `didEndLoading` once |
| EDKitPaging.PagingDataManager.CompleteWithData | EDKit/Classes/PagingDataManager.swift:124-138 | the four success assignments in the source's order, then `didEndLoading` |
| EDKitPaging.PagingDataManager.CompleteWithError | EDKit/Classes/PagingDataManager.swift:141-147 | a cancellation error changes nothing and sends nothing; any other error assigns only `canLoadMore` and sends `didEndLoading` |
| EDKitPaging.SuccessEffect | EDKit/Classes/PagingDataManager.swift:124-138 | on success, the data is replaced or appended, the requested page becomes current, `isEndOfData` is the provider's flag and `canLoadMore` its negation |
| EDKitPaging.FailureEffect | EDKit/Classes/PagingDataManager.swift:141-147 | a cancellation changes and notifies nothing; any other error only sets `canLoadMore = !isEndOfData && !data.isEmpty` |
| EDKitPaging.PagingDataManager.CancelCurrentLoadRequest | EDKit/Classes/PagingDataManager.swift:156-158 | only the handle is cancelled; no property, request or signal changes, so a later completion is still applied |
| PagingComparison.PreloadAgrees | EDKit/Classes/PagingDataManager.swift:75-108 | on the four shared properties, both managers leave the same values after an accepted load of any action |
| PagingComparison.CompletionAgrees | EDKit/Classes/PagingDataManager.swift:124-147 | when XKit's manager does not clear data on failure, a completion applied by both has the same effect on the shared properties |
| PagingComparison.XKitStaleCompletion | XKit/PagingDataManager.swift:126 | two refreshes, after which the first request's answer [7] arrives: XKit's manager discards it and `data` stays empty |
| PagingComparison.EDKitStaleCompletion | EDKit/Classes/PagingDataManager.swift:118-121 | the same run on EDKit's manager applies the stale answer: `data` becomes [7] |
| PagingComparison.XKitCompletionAfterCancel | XKit/PagingDataManager.swift:170-173 | a refresh, a cancel, then the answer [7]: handle 1 is cancelled and the answer is discarded |
| PagingComparison.EDKitCompletionAfterCancel | EDKit/Classes/PagingDataManager.swift:156-158 | the same run on EDKit's manager cancels handle 1 yet still applies [7] |
| PasswordStrength.Lowercased | EDKit/Classes/PasswordStrengthMeter.swift:104 | an upper-case ASCII letter becomes the same letter in lower case; anything that is not an upper-case letter is unchanged |
| PasswordStrength.ClassFrom | EDKit/Classes/PasswordStrengthMeter.swift:182-189 | the first index from i on whose class string contains the character, or -1 exactly when none does |
| PasswordStrength.GetClass | EDKit/Classes/PasswordStrengthMeter.swift:182-189 | `getClass` returns the index of the first class string containing the character, or -1 exactly when none contains it |
| PasswordStrength.ClassesCoverAscii | EDKit/Classes/PasswordStrengthMeter.swift:22-24 | every lower-cased ASCII letter lies in some letter class and some first-letter class, and every digit in some digit class |
| PasswordStrength.RemoveInsertSpec | EDKit/Classes/PasswordStrengthMeter.swift:142-180 | a password shorter than 6 is returned unchanged; from length 2 on, the result has at least 2 characters, so the indexing of the scoring stays in bounds |
| PasswordStrength.PicksLength | EDKit/Classes/PasswordStrengthMeter.swift:153-159 | the stride loop collects (n - from + 1) / 2 characters, the k-th being the one at from - 1 + 2k |
| PasswordStrength.EvenTestKeepsOddIndices | EDKit/Classes/PasswordStrengthMeter.swift:147-162 | when every even index from 2 on holds the first character, the result is the characters at odd indices 1, 3, ... below n - 1 |
| PasswordStrength.OddTestKeepsEvenIndices | EDKit/Classes/PasswordStrengthMeter.swift:164-177 | when the even test fails and every odd index from 3 on holds the second character, the result is the characters at even indices below n - 1 |
| PasswordStrength.StrideTest | EDKit/Classes/PasswordStrengthMeter.swift:153-159 | the stride loop reports whether every checked position holds the insert character and, if so, returns the characters it collected |
| PasswordStrength.RemoveInsert | EDKit/Classes/PasswordStrengthMeter.swift:142-180 | the method computes the even test, then the odd test, then the fallback to the input |
| PasswordStrength.FirstCharacterValue | EDKit/Classes/PasswordStrengthMeter.swift:62-77 | the value of the first character: its first-letter class, its digit class + 2, or its symbol class (3 when the symbol is in no class) + 4 |
| PasswordStrength.CharacterValue | EDKit/Classes/PasswordStrengthMeter.swift:99-113 | a repeated character adds 0; otherwise a letter adds its letter class, a digit its digit class, a symbol its class (3 when unlisted) + 2 |
| PasswordStrength.ScanCharacters | EDKit/Classes/PasswordStrengthMeter.swift:79-117 | the loop over characters 1 to n - 1 sums the entropy, counts the class changes, and records whether an upper-case or a lower-case letter appeared after a character other than a space |
| PasswordStrength.Normalize | EDKit/Classes/PasswordStrengthMeter.swift:133-134 | the normalised score lies in [0, 100], and is twice the raw score when that is in [0, 50] |
| PasswordStrength.Score | EDKit/Classes/PasswordStrengthMeter.swift:44-137 | every password scores between 0 and 100; one of length 1 or less scores 0 |
| PasswordStrength.CalculateScore | EDKit/Classes/PasswordStrengthMeter.swift:44-137 | the imperative scoring computes the score of the password |
| PasswordStrength.CheckPasswordStrength | EDKit/Classes/PasswordStrengthMeter.swift:32-42 | the level is strong iff the score is at least 60, moderate iff it is in [40, 60), and weak iff it is below 40; a password of length 1 or less is weak |
| PasswordStrength.LevelMonotone | EDKit/Classes/PasswordStrengthMeter.swift:35-41 | a higher score never gives a lower level |
| PasswordStrength.RepeatsAddNothing | EDKit/Classes/PasswordStrengthMeter.swift:99-100 | a run of characters equal to their predecessor adds nothing to the entropy sum or to the class changes |
| PasswordStrength.InsertBonusRange | EDKit/Classes/PasswordStrengthMeter.swift:124-126 | when `removeInsert` changed the password the bonus lies between 2 and 4, and is the full 4 once the stripped password has at least four characters |
| PasswordStrength.EntropyNonnegative | EDKit/Classes/PasswordStrengthMeter.swift:99-113 | with ASCII classes every character adds at least 0 |
| PasswordStrength.FloorNeverApplies | EDKit/Classes/PasswordStrengthMeter.swift:132-134 | with ASCII classes the floor at 0 never takes effect: the score is the doubled raw score, capped at 100 |
| UndoRedo.UndoRedoManager.constructor | XKit/UndoRedoManager.swift:33-36 | both stacks start empty |
| UndoRedo.UndoRedoManager.CanUndo | XKit/UndoRedoManager.swift:19-21 | true iff the undo stack is non-empty |
| UndoRedo.UndoRedoManager.CanRedo | XKit/UndoRedoManager.swift:23-25 | true iff the redo stack is non-empty |
| UndoRedo.UndoRedoManager.Add | XKit/UndoRedoManager.swift:39-45 | one entry is appended to the undo stack, and the redo stack is emptied |
| UndoRedo.UndoRedoManager.Undo | XKit/UndoRedoManager.swift:49-62 | on an empty undo stack it fails with `cannotUndo` and neither stack changes; otherwise the last undo entry moves to the front of the redo stack, and its undo closure's value is returned |
| UndoRedo.UndoRedoManager.Redo | XKit/UndoRedoManager.swift:66-79 | on an empty redo stack it fails with `cannotRedo` and nothing changes; otherwise the first redo entry moves to the end of the undo stack, and its redo closure's value is returned |
| UndoRedo.UndoRedoManager.Clear | XKit/UndoRedoManager.swift:81-84 | both stacks are empty |
| UndoRedo.UndoRedoManager.ClearRedos | XKit/UndoRedoManager.swift:87-89 | the redo stack is empty and the undo stack is unchanged |
| UndoRedo.RedoUndoes | XKit/UndoRedoManager.swift:49-79 | an undo followed by a redo restores both stacks exactly |
| UndoRedo.UndoRedoes | XKit/UndoRedoManager.swift:49-79 | a redo followed by an undo restores both stacks exactly |
| UndoRedo.MovesKeepSize | XKit/UndoRedoManager.swift:53-59 | undo and redo keep the total number of entries |
| UndoRedo.UndoN | XKit/UndoRedoManager.swift:49-62 | n undos move n entries from the undo stack to the redo stack |
| UndoRedo.RedoAllAfterUndoAll | XKit/UndoRedoManager.swift:49-79 | n undos followed by n redos restore both stacks |
| TriStates.Init | XKit/TriState.swift:44-50 | `init(nil)` is absent and `init(v)` is present with `v`: the value read back is the one given, and indeterminate is never produced |
| TriStates.RoundTrip | XKit/TriState.swift:36-50 | `TriState(x).value == x` for every optional x |
| TriStates.InitInjective | XKit/TriState.swift:44-50 | different optionals give different tri-states |
| TriStates.ExactlyOneCase | XKit/TriState.swift:15-34 | exactly one of isPresent, isAbsent and isIndeterminate holds |
| TriStates.PresentIffValue | XKit/TriState.swift:36-42 | isPresent holds iff value is non-nil |
| TextComponentParser.CombinePatterns | XKit/TextComponentParser.swift:20-28 | the loop builds the alternation of the patterns, each in parentheses, separated by bars |
| TextComponentParser.CombinedShape | XKit/TextComponentParser.swift:22-28 | the combined pattern is empty iff there are no patterns; otherwise it starts with `(` and ends with `)`; its length is two parentheses per pattern plus one bar between neighbours |
| TextComponentParser.FirstParticipating | XKit/TextComponentParser.swift:57-63 | the lowest pattern index whose group took part in the match, or -1 exactly when none did |
| TextComponentParser.MatchedPattern | XKit/TextComponentParser.swift:57-63 | the inner loop finds that same lowest index |
| TextComponentParser.Parse | XKit/TextComponentParser.swift:18-76 | the loop emits a plain component for each non-empty gap, one component per attributed match, and a plain tail when text remains |
| TextComponentParser.NoPatternsGivePlainText | XKit/TextComponentParser.swift:30-33 | with no patterns the result is one plain component holding the whole text |
| TextComponentParser.UncompilableGivesPlainText | XKit/TextComponentParser.swift:35-38 | when the combined pattern does not compile, the result is one plain component holding the whole text |
| TextComponentParser.EmitConcat | XKit/TextComponentParser.swift:46-73 | for ordered, non-overlapping, attributed matches, the component values concatenate to the text from the last index on |
| TextComponentParser.ParseConcat | XKit/TextComponentParser.swift:18-76 | for ordered, non-overlapping, attributed matches, the component values concatenate to the input text |
| TextComponentParser.EmitWellSegmented | XKit/TextComponentParser.swift:46-73 | no plain component is empty, and no plain component follows another |
| TextComponentParser.MatchedComponent | XKit/TextComponentParser.swift:57-63 | a matched component's value is exactly the matched text, and its pattern is the lowest-index pattern whose group took part |
| TextComponentParser.UnattributedMatchIsDropped | XKit/TextComponentParser.swift:57-63 | a match for which no pattern's group is recorded yields no component, so its text is missing from the result |
| Logs.LastPathComponent | EDKit/Classes/Logs.swift:64 | the file name is the longest suffix of the path without a `/`: the whole path, or the part right after its last `/` |
| Logs.PrefixIsOneCharacter | EDKit/Classes/Logs.swift:52-62 | each type's prefix is a single emoji that identifies the type |
| Logs.FormatFrame | EDKit/Classes/Logs.swift:51-67 | the line starts with the type's prefix and ends with ` -> ` followed by the message |
| Logs.TagInsertion | EDKit/Classes/Logs.swift:65 | ` <tag>` appears exactly when there is a tag: right before ` -> `, with nothing else changed |
| Logs.LevelMapping | EDKit/Classes/Logs.swift:122-130 | verbose maps to debug, info and warn to info, error to error |
| Logs.TagFilter | EDKit/Classes/Logs.swift:105-117 | with no tag list only the type filter applies; with a tag list an untagged item is dropped; the default configuration passes everything |
| Logs.ConsoleLogger.constructor | EDKit/Classes/Logs.swift:74-75 | every log type is allowed, and every tag |
| Logs.ConsoleLogger.Log | EDKit/Classes/Logs.swift:104-135 | an item is dropped when its type is not allowed, or when a tag list is set and its tag is missing or not listed; otherwise its formatted line is written once, at the mapped level |
| Logs.AddedIdempotent | EDKit/Classes/Logs.swift:145-150 | adding a logger twice is the same as adding it once; the logger is then registered; the registry stays free of duplicates |
| Logs.WithoutKeepsOthers | EDKit/Classes/Logs.swift:152-154 | after remove, the logger is absent, every other logger occurs as often as before, and removing an absent logger changes nothing |
| Logs.WithoutAppend | EDKit/Classes/Logs.swift:152-154 | removal works element by element, keeping the order of the others |
| Logs.RemoveThenAdd | EDKit/Classes/Logs.swift:145-154 | a logger removed and then added is at the end of the registry |
| Logs.BroadcastClosedForm | EDKit/Classes/Logs.swift:164-166 | the dispatch delivers exactly one item to each registered logger, in registry order |
| Logs.Registry.constructor | EDKit/Classes/Logs.swift:143 | the registry starts with no loggers |
| Logs.Registry.Add | EDKit/Classes/Logs.swift:145-150 | an already registered logger leaves the list unchanged; any other logger is appended at the end |
| Logs.Registry.Remove | EDKit/Classes/Logs.swift:152-154 | every occurrence of the logger is removed |
| Logs.Registry.Dispatch | EDKit/Classes/Logs.swift:156-206 | a false condition reaches no logger; otherwise every registered logger, in list order, receives one item of the level's type |
| Once.RunsOfStep | XKit/Once.swift:16-19 | one `execute` runs the work exactly when the identifier is new |
| Once.HeldAppendExecute | EDKit/Classes/Once.swift:15-20 | `enter` and `leave` are paired on every path: the lock is free after each `execute` |
| Once.ExecuteStep | XKit/Once.swift:14-21 | after an `execute`, each executed identifier's work has run exactly once and no other work has run |
| Once.Once.constructor | XKit/Once.swift:12 | nothing has been executed |
| Once.Once.Execute | XKit/Once.swift:14-21 | the identifier joins the executed set, which only grows; the work runs the first time and never again; other identifiers are unaffected; the lock is always released (EDKit/Classes/Once.swift:14-21 is the same code with `enter`/`leave`) |

## Left out

- The Combine plumbing (subjects, `sink`, `AnyCancellable`, `eraseToAnyPublisher`) is not modelled as streams. What subscribers observe is one ordered trace per owner. The forwarding subscriptions of a `StateObject` box are counted, not run.
- The association table that holds an owner's publishers becomes fields of the owner's record.
- The asynchronous provider call and the `Cancellable` transport are not modelled. A handle is a number chosen by the caller, and cancelling it appends it to `cancelledHandles`.
- `UUID()` becomes a counter of fresh task identifiers.
- Paging.PageToLoad: `currentPage + 1` is computed on unbounded integers. Swift's `Int` addition traps on overflow when the current page is `Int.max`, and that trap is not modelled.
- `Error.isCancelled` classifies Foundation error types, outside the core. It becomes a function the manager is given.
- Weak references are not modelled. The managers' `[weak self]` guards assume a live manager, and a deallocated one is not modelled.
- The `Logs` calls and `debugName` inside the paging managers are output only and are left out.
- EDKitPaging.PagingDataManager.Complete: the `didBeginLoading`/`didEndLoading` signals are a sequence separate from the property trace. Their interleaving with the property notifications is not recorded.
- XKitPaging.PagingDataManager.Complete and EDKitPaging.PagingDataManager.Complete require the request to be one the manager made, since a provider cannot answer any other.
- XKitPaging.PagingDataManager.Complete / EDKitPaging.PagingDataManager.Complete: the model assumes the provider answers only after `requestToLoadData` has returned. A provider that calls the completion synchronously, inside `requestToLoadData`, is not modelled. In the source its `currentLoadRequest = nil` then runs first, and the returned handle overwrites it, so a finished request keeps a non-nil handle that the next load or cancel cancels.
- XKitPaging.PagingDataManager.IssueRequest: cancellations are a sequence separate from the property trace. The contract does not record that the previous handle is cancelled and cleared before the `status = loading` notification, so `status` subscribers seeing a nil handle is not stated.
- XKitPaging.PagingDataManager.LoadData: the managers' invariant does not carry "the did-change subject holds the stored value". That fact is proved for each assignment by `StateObservable.ObservableObject.SetState` and `SetEquatableState`.
- StateObservable.ObservableObject.PerformBatchStateUpdates: the update closure is modelled as a sequence of assignments to one `@State` property. A closure writing several properties is modelled by `XKitPaging.PagingDataManager.Reset`.
- StateObservable.ObservableObject.BeginBatchStateUpdates: the `Asserts.failure` on a nested batch becomes a precondition.
- `Asserts` (logging plus `assertionFailure`) is not modelled.
- Unicode character properties (`isLetter`, `isNumber`, `isUppercase`, `lowercased()`) are restricted to ASCII. Every other character is a symbol, so that class is found or given the "unlisted" value.
- PasswordStrength.CalculateScore / RemoveInsert: characters are Unicode scalars, not Swift's grapheme clusters, and `!=` compares scalars, not canonical equivalence. On a password with multi-scalar characters (for example "ab\r\n", which Swift counts as 3 characters and the model as 4), lengths, indices, the `< 6` cutoff, the removeInsert comparison and so the score can differ.
- PasswordStrength.FloorNeverApplies holds under the model's ASCII classes only. In the source a character outside every class (such as `é`) has class -1 and can make the raw score negative, and then the floor at 0 applies.
- `NSRegularExpression` is a foreign library. Its compilation and matching are inputs: whether the combined pattern compiles, and each match's range and participating groups. A match's range is given in characters, not UTF-16 offsets.
- TextComponentParser.ParseConcat assumes every match is attributed to a pattern. That holds when no pattern contains capture groups of its own. Otherwise the source drops the match's text, as `UnattributedMatchIsDropped` shows.
- `os_log`/`NSLog` output, the `#available` choice between them, and the lazy creation of the `OSLog` are I/O. The console logger records `(level, line)` pairs instead.
- Logs.Registry.Dispatch: the message is one precomputed value. In the source it is an `@autoclosure`, evaluated once per registered logger inside `forEach`, and never when the condition is false or no logger is registered. Side effects or differing results of those evaluations are not modelled.
- Logs.ConsoleLogger.Log uses the default formatter only. A custom formatter is not modelled.
- Logs.LastPathComponent is the text after the last `/`. `NSString`'s handling of a trailing slash is not modelled.
- Logger identity (`===`) is modelled as equality of logger values.
- The static state of `Logs` and `Once` becomes the fields of one object.
- Undo and redo closures are values. Their side effects are not modelled, only their return values.
- The lock inside `Once` keeps its sequential meaning only, as `Acquire`/`Release` events. Concurrency is out of scope.
