# label-actions: configuration resolution and action dispatch

This project models the core of a GitHub Action that reacts to a label being
added to an issue. The configuration file's parsed YAML tree maps label names to
action records. The action looks up the added label and, unless it is a dry
run, performs that label's action: comment, close, reopen, lock (with or
without a reason), add labels.

The repository holds the action twice. `src/label-actions.js` is the Flow source,
and `lib/label-actions.js` is a compiled copy that differs in behaviour. Every
model is parameterised by `Variant = Src | Lib` wherever the copies differ:

- `src` never inserts into the map it builds, so `run` never acts. `lib` inserts
  each validated label.
- `src`'s remote-call wrappers catch and log failures and dispatch carries on
  (`LogAndContinue`). `lib`'s wrappers rethrow, which skips every later call and
  fails the run (`AbortOnFailure`).

Modules:

- `Wrappers` holds `Option` and `Result`.
- `ConfigTree` is the untyped JavaScript value tree produced by the YAML loader,
  together with the JavaScript behaviours the resolver relies on, written as
  plain definitions:
  - `hasOwnProperty` (`OwnField`). An entry that owns a `hasOwnProperty` key
    shadows the method (`HasOwnPropertyShadowed`), and calling it throws.
  - `for ... in` enumeration (`ForInEntries`). An object yields its keys in the
    order it records, an array or string yields its index strings, and anything
    else yields nothing. `ForInObject` and `ForInIndexed` state what these
    definitions guarantee. The second relies on `DecimalStringInjective`: no two
    positions share a key.
- `LabelActions` is one label's record, its defaults, and validation of one entry.
  - The six recognised options are checked in the order comment, close, reopen,
    lock, lockReason, labels.
  - The first owned option with the wrong type throws, naming the label and the
    option.
  - A `null`/`undefined` entry throws when `hasOwnProperty` is read on it. An
    entry owning a `hasOwnProperty` key throws when it is called.
  - `BuildLabelAction` is the imperative loop body. Each guarded block is the
    helper method `CheckOptionStep`.
  - `ActionFor` writes the same blocks as a recursive function over option
    positions (`CheckFrom`). `Validated` is the independent record-level
    definition, and `ActionForMeaning` ties the two together.
- `Resolver` is the `for ... in` loop of `getLabelActionMapFromObject`
  (`GetLabelActionMapFromObject`), specified by the fold `ResolveEntries`. The
  lemmas say what the `lib` map holds for object, array and string documents.
- `Dispatcher` is `performAction`.
  - Each remote call is an `Effect` value. Whether a call fails is an oracle
    `fails`.
  - `PerformAction` is the imperative sequence of five guarded steps, each step
    a `Guarded...` method.
  - `Planned` is the list of calls the guards select, and `Execute` runs a list
    of calls under a failure policy.
- `Controller` is the part of `run` after loading the configuration.
  - It looks up the label, then performs the action, announces a dry run (empty
    `perform` input), or ignores the label.
  - Thrown errors end the run as `Failed`.

## Model

| member | source | states |
|---|---|---|
| ConfigTree.DecimalStringInjective | src/label-actions.js:205 | distinct positions of an array or string get distinct `for ... in` keys |
| ConfigTree.ForInObject | src/label-actions.js:205 | `for (const label in configObject)` over an object visits each own key exactly once, and only those, with its value |
| ConfigTree.ForInIndexed | src/label-actions.js:205 | over an array or a string, `for ... in` visits every position once, under pairwise distinct decimal keys, with its element (a one-character string for a string) |
| LabelActions.BuildLabelAction | src/label-actions.js:206-268 | the loop body throws on a nullish entry or one owning `hasOwnProperty`; otherwise it starts from the defaults, checks the six options in source order, overwrites a field only with an owned value of the right type, and throws on the first wrong-typed one. Its result equals `ActionFor`, which `ActionForMeaning` relates to `Validated` |
| LabelActions.CheckOptionStep | src/label-actions.js:214-222 | one guarded block: an option the entry does not own leaves the record alone, an owned value of the accepted type overwrites its field, and any other owned value throws naming the label and the option; the result equals `CheckOption` |
| LabelActions.CheckOptionExtendsPrefix | lib/label-actions.js:188-235 | checking option `i` against a record that already holds the first `i` validated fields throws a wrong-type error for that option when it is mistyped, and otherwise adds its validated field |
| LabelActions.CheckFromOk | lib/label-actions.js:188-235 | the remaining checks from option `i` succeed iff no option at or after `i` is mistyped, and then yield the validated record |
| LabelActions.CheckFromErr | lib/label-actions.js:188-235 | the checks from `i` throw for option `o` iff `o` is mistyped, comes at or after `i`, and no option before it (from `i`) is mistyped |
| LabelActions.CheckFromNamesLabel | src/label-actions.js:218-266 | every error the checks raise is a wrong-type error naming the label being validated |
| LabelActions.ActionForMeaning | src/label-actions.js:206-268 | a nullish entry throws `NotAnObject`; a non-nullish entry owning `hasOwnProperty` throws `NotCallable`; validation succeeds iff neither holds and no recognised option is mistyped, and then yields `Validated(entry)`; it throws for option `o` iff neither holds and `o` is the first mistyped option; every error names the label |
| LabelActions.OnlyRecognisedOptionsMatter | lib/label-actions.js:188-235 | two non-nullish entries that own the same values for the six recognised options, and that both own or both lack `hasOwnProperty`, validate alike, whatever other keys they have |
| LabelActions.UnknownKeyIgnored | lib/label-actions.js:179-235 | assigning a key that is neither a recognised option nor `hasOwnProperty` on an object entry (a new key goes last in the order, an existing one keeps its place) does not change its validation |
| LabelActions.OwnedHasOwnPropertyThrows | src/label-actions.js:214 | assigning a `hasOwnProperty` key of any value on an object entry makes its first `hasOwnProperty` call throw, whatever options it has |
| LabelActions.ScalarEntryYieldsDefaults | src/label-actions.js:206-214 | a string, number, boolean or array entry owns none of the options and yields the default record |
| LabelActions.NoOptionsYieldsDefaults | src/label-actions.js:206-213 | an object entry with none of the six keys and no `hasOwnProperty` key yields `comment` and `lockReason` undefined, `close`/`reopen`/`lock` false, `labels` empty |
| LabelActions.MistypedOptionFails | src/label-actions.js:223-231 | any owned option of the wrong type (e.g. a non-boolean `close`) makes validation throw for this label: `NotCallable` iff the entry owns `hasOwnProperty`, otherwise a wrong-type error naming that option or an earlier one |
| LabelActions.LockReasonAnyString | src/label-actions.js:250-259 | an entry whose `lockReason` is any string and whose other options are well typed validates, keeping that string; nothing checks it against the four declared reasons |
| LabelActions.LabelsAnyArray | src/label-actions.js:260-268 | an entry whose `labels` is any array and whose other options are well typed validates, keeping the elements as they are, of whatever type |
| LabelActions.UndeclaredLockReasonAccepted | src/label-actions.js:8-13 | `"because"` is not one of the declared lock reasons, yet an entry `{lockReason: "because"}` validates to a record carrying it |
| LabelActions.CloseYesRejected | src/label-actions.js:223-231 | `{close: "yes"}` under label `bug` throws naming `bug` and `close` |
| Resolver.GetLabelActionMapFromObject | lib/label-actions.js:175-241 | the loop returns exactly the fold `Resolve`: the first invalid entry's error, otherwise the map (empty for `src`, since it never inserts) |
| Resolver.ResolveStep | lib/label-actions.js:178-238 | visiting entry `i` after `i` resolved entries either throws its error or (for `lib`) binds its label to its action |
| Resolver.ResolvePrefixErr | lib/label-actions.js:188-235 | once a prefix of the entries throws, the whole resolution throws the same error: no partial map is returned |
| Resolver.ResolveOkIff | lib/label-actions.js:178-238 | resolution succeeds iff every visited entry validates |
| Resolver.ResolveFirstErr | lib/label-actions.js:188-235 | when entry `i` is the first invalid one, resolution fails with its error, whatever follows |
| Resolver.SrcIsLibWithoutInsert | src/label-actions.js:204-271 | the `src` loop has the same errors as the `lib` loop and returns an empty map whenever `lib` succeeds |
| Resolver.LibKeys | lib/label-actions.js:237 | the `lib` map's keys are exactly the labels visited |
| Resolver.LibLastBindingWins | lib/label-actions.js:237 | in `lib` each label is bound to the action of the last entry carrying it |
| Resolver.LibObjectDocument | lib/label-actions.js:175-241 | for an object document the `lib` map has exactly the document's top-level keys, each bound to its validated record |
| Resolver.LibDistinctLabels | lib/label-actions.js:237 | in `lib`, when no two visited entries share a label, every entry's label is bound to that entry's action |
| Resolver.IndexLabels | lib/label-actions.js:178 | entries labelled by their positions' decimal spellings carry pairwise distinct labels, and the labels visited are exactly the index keys |
| Resolver.LibIndexedDocument | lib/label-actions.js:175-241 | for an array or string document the `lib` map has exactly one key per position, bound to the action of the element there |
| Resolver.CloseYesDocumentRejected | lib/label-actions.js:196-202 | the document `{bug: {close: "yes"}}` fails to resolve in both copies, naming `bug` and `close` |
| Resolver.SrcDropsConfiguredLabel | src/label-actions.js:204-271 | the document `{bug: {close: true}}` resolves to `{bug ↦ close}` in `lib` but to the empty map in `src` |
| Dispatcher.Execute | lib/label-actions.js:77-153 | a dispatch aborts only under the rethrowing policy, and then its last attempt is a failed one |
| Dispatcher.Issue | lib/label-actions.js:77-88 | one wrapper call: the call is recorded with its outcome and a failure escapes only under `AbortOnFailure` |
| Dispatcher.GuardedComment | src/label-actions.js:62-64 | a comment is posted iff `comment` is truthy, and the dispatch equals executing the comment step |
| Dispatcher.GuardedClose | src/label-actions.js:65-67 | the issue is closed iff `close`; the dispatch so far extends by executing the close step |
| Dispatcher.GuardedReopen | src/label-actions.js:68-70 | the issue is reopened iff `reopen`; the dispatch so far extends by executing the reopen step |
| Dispatcher.GuardedLock | src/label-actions.js:71-75 | locks with the reason iff `lock` and a truthy `lockReason`, plainly iff `lock` alone; the dispatch so far extends by executing the lock step |
| Dispatcher.GuardedLabels | src/label-actions.js:76-78 | adds the labels iff the array is non-empty; the dispatch so far extends by executing the labels step |
| Dispatcher.PerformAction | lib/label-actions.js:53-75 | `performAction` issues exactly the calls of `Planned` in order under the copy's failure policy, stopping at the first failure under `AbortOnFailure` |
| Dispatcher.ExecuteAbortedExtend | lib/label-actions.js:53-75 | after a call has thrown, later steps issue nothing |
| Dispatcher.AbortedSkipsRest | lib/label-actions.js:53-75 | an abort during the first `k` steps is the outcome of the whole `performAction` |
| Dispatcher.ExecuteLogAndContinue | src/label-actions.js:86-168 | with the logging wrappers every planned call is attempted in order whatever fails, and nothing aborts |
| Dispatcher.ExecuteAbortOnFailure | lib/label-actions.js:77-153 | with the rethrowing wrappers the calls are attempted in order up to and including the first failure, and none after it |
| Dispatcher.AbortedIffSomeFailure | lib/label-actions.js:77-153 | with the rethrowing wrappers the dispatch aborts iff some planned call fails, and then the last attempt is the first failing call |
| Dispatcher.StepsShaped | src/label-actions.js:62-78 | each step issues at most one call, of its own kind, on the event's issue |
| Dispatcher.ConcatOrdered | src/label-actions.js:62-78 | five steps' calls one after another are in step order, at most five, on one issue |
| Dispatcher.StepOf | src/label-actions.js:62-78 | each position of the concatenated steps holds a call of the step it ranks |
| Dispatcher.PlannedOrdered | lib/label-actions.js:53-75 | calls are issued in the order comment, close, reopen, lock, labels, at most one of each kind, all on the event's issue |
| Dispatcher.CallsOfStep | src/label-actions.js:62-78 | a step's calls are all of its own kind |
| Dispatcher.CallsOfSteps | src/label-actions.js:62-78 | among the five steps' calls, those of kind `k` are step `k`'s |
| Dispatcher.PlannedCalls | src/label-actions.js:62-78 | the calls of each kind in the plan are exactly that step's guarded calls |
| Dispatcher.LockOutcome | src/label-actions.js:71-75 | `lock` with a truthy reason gives exactly one lock-with-reason call carrying it, `lock` without one exactly one plain lock call, no `lock` no lock call even when `lockReason` is set |
| Dispatcher.CommentGuard | lib/label-actions.js:54-56 | a comment with body `b` is posted iff `comment` is `b` and `b` is non-empty; an empty comment posts nothing |
| Dispatcher.CloseReopenGuards | lib/label-actions.js:58-64 | the close call is issued iff `close`, the reopen call iff `reopen`; both can fire |
| Dispatcher.LabelsGuard | lib/label-actions.js:72-74 | the add-labels call is issued iff `labels` is non-empty, and it carries that array |
| Dispatcher.DefaultsIssueNothing | src/label-actions.js:206-213 | the default record issues no call |
| Dispatcher.LabelsOnlyAction | src/label-actions.js:76-78 | a record with only `labels: ["a", "b"]` issues one add-labels call with both |
| Dispatcher.FailedCommentScenario | src/label-actions.js:93-95 | with `comment`, `close` and `labels` and a failing comment call, `src` still closes and labels while `lib` stops after the comment |
| Controller.Run | lib/label-actions.js:34-50 | `run` after loading the configuration behaves as `Outcome`: rejection, ignore, dry run or perform |
| Controller.RejectedConfigFails | lib/label-actions.js:47-50 | a configuration that fails to resolve fails the run with that error before any remote call |
| Controller.SrcNeverActs | src/label-actions.js:40-50 | in `src` no remote call is ever made and nothing is announced, whatever the configuration, label and `perform` input |
| Controller.LibUnknownLabelIgnored | lib/label-actions.js:44-46 | in `lib` a label without an action makes no call; the run succeeds with only the ignore notice |
| Controller.DryRunMakesNoCall | lib/label-actions.js:37-43 | an empty `perform` makes no call; the run fails only on a rejected configuration, and announces a dry run iff the label is configured |
| Controller.PerformedOutcome | lib/label-actions.js:36-40 | with a configured label and non-empty `perform`, the run reports exactly the dispatch of the label's action |
| Controller.LibPerformsInOrder | lib/label-actions.js:37-40 | in `lib` a non-empty `perform` performs the action: attempts follow the plan in order, and a successful run attempted every call |
| Controller.LibFailsOnFirstFailure | lib/label-actions.js:47-50 | in `lib` the run fails iff some planned call fails, and then it stops at and names the first failing call |
| Controller.ShadowedEntryFailsRun | lib/label-actions.js:34-50 | the document `{bug: {hasOwnProperty: true}}` fails the run for label `bug` in both copies, before any remote call |
| Controller.FalseStringPerforms | lib/label-actions.js:21 | the `perform` input `"false"` is truthy: with a configured label `lib` performs |

## Left out

- Loading the configuration (`getLabelActions`, `fetchContent`): the remote contents fetch, Buffer decoding and `yaml.safeLoad` are I/O and a foreign library. The model starts from the parsed tree (`ConfigTree.Value`). The `src` `fetchContent` returning `undefined` after a logged failure is therefore not modelled.
- The Octokit calls inside the six wrappers are reduced to "one call of this kind with these arguments, which may fail", decided by the `fails` oracle.
- `core.getInput`, `core.debug`, `core.error`, `core.setFailed`, `console.log`, the token and `github.context` are process and logging plumbing. Log lines are reduced to a `Notice`, and the outcome to `Succeeded`/`Failed`. The event's label name, issue number and `perform` input are parameters.
- Error message strings: an error is the (label, option) pair, `NotAnObject(label)` for a nullish entry, or `NotCallable(label)` for an entry owning `hasOwnProperty`.
- Keys named `__proto__`: depending on the YAML loader's version, such a key may set the entry's prototype instead of adding an own property. The model treats it as an ordinary key, so inherited options and an inherited `hasOwnProperty` are not modelled.
- `async`/`await`: the calls are strictly sequential and are modelled as ordinary steps.
- The Flow type annotations enforce nothing at run time and are not modelled.
- JavaScript numbers are modelled as integers (`Num(int)`). No option accepts a number, so only the type tag matters.
- ConfigTree.ForInEntries: does not model inherited enumerable properties or JavaScript's rule that integer-like object keys come first, in ascending order. An object's enumeration order is taken as given (the `order` field). It is the parser's insertion order, which is what JavaScript produces for non-numeric label names.
- ConfigTree.ForInEntries: a string document is enumerated one Dafny character (a Unicode scalar value) per position, where JavaScript visits UTF-16 code units. A character outside the Basic Multilingual Plane, such as `"😀"`, gives two entries in JavaScript and one in the model. Scalars yield nothing and arrays yield their index strings, as in JavaScript.

## Findings

| source | as written | input that shows it | evidently intended | confidence | as-written member | corrected member |
|---|---|---|---|---|---|---|
| src/label-actions.js:204-271 | the loop validates every entry but never calls `labelActionsMap.set`, so the returned map is always empty and `run` never performs or announces anything | document `{bug: {close: true}}` with label `bug` added and `perform: "1"`: the map is empty and the issue is not closed | insert each validated record under its label, as lib/label-actions.js:237 does | high (not executed) | Resolver.SrcDropsConfiguredLabel | Resolver.LibObjectDocument |
