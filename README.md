# RouterOS query builder and the employee form, in Dafny

This project models two parts of an OpenVPN user-management application.

**The RouterOS query builder (`routeros-client`).** A caller opens a menu such as
`/ppp secret`. It gathers words into a builder: `where`, `select`, `options`, and so on. A
verb then turns those words into a RouterOS API *sentence* and writes it to the router.
The verbs are `get`, `find`, `add`, `disable`, `enable`, `update`, `unset`, `remove`,
`moveAbove` and `purge`. After a change, the library reads the changed entries back by
their `.id`.

The model covers:

- the builder's state: its words, its `.proplist` word, the "needs object translation" flag and the pending `placeAfter`;
- how parameters become words;
- how references written as JSON objects are looked up and replaced by ids;
- how replies are normalised;
- the read-back after each verb;
- `RosApiModel`, an item turned into an object that refreshes itself after each verb.

**The employee screen.** Its `validate` check collects one Romanian message per failed rule.
`saveEmployee` returns early with those messages when any rule fails.

The router is an oracle. `RawApi.Api` answers each sentence with a fixed function `respond`
and records every sentence sent in a ghost log. Each verb is specified by a function
(`ActedOn`, `Added`, `Removed`, `Unsetted`, `MovedAbove`) that gives three things:

- its answer;
- the exact list of sentences it sends, in order;
- the value `placeAfter` is left with.

The builder's methods are proved against those functions, with loop invariants. The lemmas
state what the functions mean.

Layout, one module per file:

- `text.dfy` (`Text`): `split`/`join`, `includes`, decimal text.
- `utils.dfy` (`Utils`): `utils.js`.
- `json.dfy` (`Json`): JavaScript values, `String(v)`, `JSON.stringify`, and `JSON.parse` of flat objects.
- `rawapi.dfy` (`RawApi`): the raw API.
- `sentences.dfy` (`Sentences`): the pure parts of `RosApiCrud.js`.
- `crud.dfy` (`RosApiCrud`): the builder class `Crud` and the verb functions.
- `commands.dfy` (`RosApiCommands`): `Commands`.
- `model.dfy` (`RosApiModel`): `Model`.
- `employee.dfy` (`EmployeeForm`): the screen.

The source's subclasses are modelled by composition. A `Commands` and a `Model` each own a `Crud`.

## Model

| member | source | states |
|---|---|---|
| Utils.LookForIdParameter | node_modules/routeros-client/dist/utils.js:9-17 | The loop returns the value of the last word that mentions `numbers=` or `.id=`, or nothing when no word does |
| Utils.LastIdValueIsLast | node_modules/routeros-client/dist/utils.js:9-17 | The result is none iff no word is an id word. Otherwise it is the text after the last `=` of an id word that no later id word follows |
| Utils.LastIdValueOfWord | node_modules/routeros-client/dist/utils.js:12-13 | Appending an id word `…=v`, with `v` free of `=`, makes `v` the value found |
| Utils.NumbersWordIsIdWord | node_modules/routeros-client/dist/utils.js:12 | A `=numbers=` word counts as an id word |
| Utils.ToDashedCase | node_modules/routeros-client/dist/utils.js:26-35 | A dashed name never holds a space or an underscore |
| Utils.DashedCaseIdentity | node_modules/routeros-client/dist/utils.js:26-35 | A name without uppercase letters, spaces or underscores is left unchanged |
| Utils.DashedCaseOfPlain | node_modules/routeros-client/dist/utils.js:28-32 | Without spaces or underscores, only the camel humps are split |
| Utils.DashedHead | node_modules/routeros-client/dist/utils.js:26-35 | The `?`/`=` prefix of a word stays its first character |
| Utils.DashedDotNames | node_modules/routeros-client/dist/utils.js:26-35 | `.id`, `.nextid` and `.dead` are unchanged by dashing |
| Utils.DashedPlaceBefore | node_modules/routeros-client/dist/utils.js:30-32 | `placeBefore` becomes `place-before` |
| Utils.DashedToCamelCase | node_modules/routeros-client/dist/utils.js:44-48 | The result has no `-` before a lowercase letter. It is no longer than the input and adds only uppercase letters |
| Utils.CamelCaseIdentity | node_modules/routeros-client/dist/utils.js:44-48 | A name with no `-` before a lowercase letter is unchanged |
| Utils.DashedToSnakeCase | node_modules/routeros-client/dist/utils.js:57-59 | Every `-` becomes `_`, and every other character stays in place |
| Utils.SnakeRoundTrip | node_modules/routeros-client/dist/utils.js:57-59 | Dashing the snake_case form of a lowercase dashed name gives the name back |
| Utils.CamelRoundTrip | node_modules/routeros-client/dist/utils.js:44-48 | Dashing the camelCase form of a dashed name whose inner pieces are longer than one letter gives the name back |
| Utils.CamelRoundTripCounterexample | node_modules/routeros-client/dist/utils.js:44-48 | With a one-letter inner piece the round trip loses a dash: `a-b-c` comes back as `a-bC` |
| Text.SplitJoin | node_modules/routeros-client/dist/RosApiCrud.js:468 | Joining the pieces of `split(c)` with `c` gives the string back, and no piece holds `c` |
| Text.JoinSplit | node_modules/routeros-client/dist/RosApiCrud.js:468 | Splitting pieces joined by `c` gives the pieces back, when none holds `c` |
| Text.SplitSingle | node_modules/routeros-client/dist/RosApiCrud.js:481 | `split(c)` gives one piece iff the string holds no `c` |
| Text.AfterLastIsTail | node_modules/routeros-client/dist/utils.js:13 | `split(c).pop()` is a `c`-free suffix. It is the whole string or follows a `c` |
| Text.BeforeFirstIsHead | node_modules/routeros-client/dist/RosApiCrud.js:349 | `split(c).shift()` is a `c`-free prefix. It is the whole string or is followed by a `c` |
| Text.NatTextValue | node_modules/routeros-client/dist/RosApiCrud.js:423-424 | The decimal text of a number reads back as that number |
| Json.ParseEncodedObject | node_modules/routeros-client/dist/RosApiCrud.js:350 | `JSON.parse(JSON.stringify(o))` gives back `o`, for an object with distinct keys and scalar values |
| Json.ParseObjectFlat | node_modules/routeros-client/dist/RosApiCrud.js:350 | The modelled `JSON.parse` yields only objects with distinct keys and scalar values |
| Json.ParseEscaped | node_modules/routeros-client/dist/RosApiCrud.js:448 | An escaped string body and its closing quote read back as the string |
| Json.ParseIntText | node_modules/routeros-client/dist/RosApiCrud.js:448 | The JSON text of an integer reads back as that integer |
| Json.InsertFlat | node_modules/routeros-client/dist/RosApiCrud.js:350 | Setting a key of a flat object keeps it flat (a repeated key keeps its place) |
| RawApi.Api.Write | node_modules/routeros-client/dist/RosApiCrud.js:327 | A write logs the sentence and answers with the router's reply to it |
| RawApi.Api.Stream | node_modules/routeros-client/dist/RosApiCommands.js:354 | A stream logs the sentence |
| Sentences.NormalizeVerbPath | node_modules/routeros-client/dist/RosApiCrud.js:21-24 | A menu followed by `/` and a verb normalises to the menu |
| Sentences.NormalizePlainPath | node_modules/routeros-client/dist/RosApiCrud.js:21-24 | A menu without spaces that ends with neither a verb nor `/` is kept |
| Sentences.FullQueryShape | node_modules/routeros-client/dist/RosApiCrud.js:249-266 | The sentence is the menu word, the proplist if any, then the words. It is kept verbatim for `print`/`getall`; otherwise no word starts with `?`, and each gathered word has only its leading `?` turned into `=` |
| Sentences.KeyRenames | node_modules/routeros-client/dist/RosApiCrud.js:286-298 | `id`, `next` and `dead` are sent as `.id`, `.nextid` and `.dead` |
| Sentences.PlaceAfterSentAsPlaceBefore | node_modules/routeros-client/dist/RosApiCrud.js:308-313 | A scalar `placeAfter` parameter is sent as `place-before` with its text |
| Sentences.ValueTexts | node_modules/routeros-client/dist/RosApiCrud.js:299-304 | Booleans are sent as `yes`/`no`, and null as an empty value |
| Sentences.ParamWordShape | node_modules/routeros-client/dist/RosApiCrud.js:312-314 | Each word starts with the chosen prefix and ends with `=` and the value's text |
| Sentences.AnyNeedsTranslationIff | node_modules/routeros-client/dist/RosApiCrud.js:305-307 | The translation flag is raised iff some non-null parameter is an object or an array holding one |
| Sentences.ScalarsNeedNoTranslation | node_modules/routeros-client/dist/RosApiCrud.js:354 | The scalar fields of a decoded reference never raise the flag |
| Sentences.Cast | node_modules/routeros-client/dist/RosApiCrud.js:420-425 | A reply value becomes a boolean iff it is `true`/`false`, a number iff it is all digits (with its value), a decimal iff it has the `\d+\.\d+` shape, and otherwise stays text |
| Sentences.ReplyKeyOfId | node_modules/routeros-client/dist/RosApiCrud.js:415-418 | The router's `.id` reaches the caller as `id`, and `.nextid` as `nextid` |
| Sentences.ReplyKeyUnchanged | node_modules/routeros-client/dist/RosApiCrud.js:415-418 | A name without `-` loses only its leading `.` |
| Sentences.TreatItemHasKeys | node_modules/routeros-client/dist/RosApiCrud.js:409-419 | The normalised item holds `$$path` and the normalised name of every raw property |
| Sentences.TreatItemOnlyKeys | node_modules/routeros-client/dist/RosApiCrud.js:409-419 | The item holds no other name |
| Sentences.TreatItemValue | node_modules/routeros-client/dist/RosApiCrud.js:412-425 | A property holds its cast value unless a later property normalises to the same name |
| Sentences.TreatItemPath | node_modules/routeros-client/dist/RosApiCrud.js:409-411 | `$$path` holds the menu unless a property normalises to that name |
| Sentences.TreatAllAt | node_modules/routeros-client/dist/RosApiCrud.js:406-430 | Each reply item is normalised on its own, in place |
| Sentences.ScanRefsSound | node_modules/routeros-client/dist/RosApiCrud.js:345-362 | Every lookup comes from a reference word: that word's key and its decoded object |
| Sentences.ScanRefsComplete | node_modules/routeros-client/dist/RosApiCrud.js:345-362 | When every reference decodes, every reference word is looked up |
| Sentences.ScanRefsOrdered | node_modules/routeros-client/dist/RosApiCrud.js:345-362 | Lookups come in increasing word order |
| Sentences.ScanRefsStops | node_modules/routeros-client/dist/RosApiCrud.js:350 | A reference that fails to decode ends the scan: later words change nothing |
| Sentences.ResolveRewrites | node_modules/routeros-client/dist/RosApiCrud.js:364-378 | Resolution succeeds only if every lookup answered. It rewrites exactly the consulted words, into `=key=id` form, and leaves no `place-after` key |
| Sentences.ResolvedWordAt | node_modules/routeros-client/dist/RosApiCrud.js:371-375 | The last lookup of a word sets it to `=key=` plus the `.id` of the first reply item, with `place-after` renamed to `place-before` |
| Sentences.RefWordRoundTrip | node_modules/routeros-client/dist/RosApiCrud.js:346-350 | A reference word built from a plain flat object is recognised, and its key and object are decoded back |
| Sentences.MentionsOwnName | node_modules/routeros-client/dist/RosApiCrud.js:347 | A text holding `name=` for an id-like name mentions a reference |
| RosApiCrud.Crud.constructor | node_modules/routeros-client/dist/RosApiCrud.js:16-25 | The builder starts empty and unflagged, with the normalised menu path |
| RosApiCrud.Crud.FullQuery | node_modules/routeros-client/dist/RosApiCrud.js:249-266 | The sentence of the builder as it stands. The builder is unchanged |
| RosApiCrud.Crud.PushParam | node_modules/routeros-client/dist/RosApiCrud.js:280-314 | One parameter's word is pushed onto the builder's own list iff `addToLocalQuery` holds; the flag and `placeAfter` are updated |
| RosApiCrud.Crud.ParamWordOf | node_modules/routeros-client/dist/RosApiCrud.js:284-313 | A parameter's word, the flag it raises and the `placeAfter` it sets |
| RosApiCrud.Crud.MakeQuery | node_modules/routeros-client/dist/RosApiCrud.js:274-318 | One word per parameter, in order, appended in place or returned alone. The flag is raised by any object parameter; `placeAfter` is the last scalar `placeAfter` |
| RosApiCrud.Crud.StringifySearchQuery | node_modules/routeros-client/dist/RosApiCrud.js:438-454 | Objects become JSON text, at the top level or as array elements. The flag is raised iff one was met |
| RosApiCrud.Crud.Write | node_modules/routeros-client/dist/RosApiCrud.js:324-330 | The builder is emptied, the sentence is sent once, and its reply is normalised |
| RosApiCrud.Crud.TreatResult | node_modules/routeros-client/dist/RosApiCrud.js:409-428 | The loop builds the normalised item of one reply item |
| RosApiCrud.Crud.TreatProperties | node_modules/routeros-client/dist/RosApiCrud.js:406-431 | One normalised item per reply item, in order |
| RosApiCrud.Crud.BeginTranslate | node_modules/routeros-client/dist/RosApiCrud.js:340-363 | Without the flag or words, nothing is sent. Otherwise one lookup is sent per reference word until one fails to decode |
| RosApiCrud.Crud.LookupReferences | node_modules/routeros-client/dist/RosApiCrud.js:345-363 | The lookups are exactly those of the reference scan, logged in order, with their replies |
| RosApiCrud.Crud.LookupWord | node_modules/routeros-client/dist/RosApiCrud.js:346-361 | One word either adds its lookup to the scan or leaves it |
| RosApiCrud.Crud.Lookup | node_modules/routeros-client/dist/RosApiCrud.js:351-355 | A lookup prints the `.id` of items matching every field of the object |
| RosApiCrud.Crud.FinishTranslate | node_modules/routeros-client/dist/RosApiCrud.js:364-379 | References are replaced by the ids found. A lookup without an answer fails with `REFNOTFND` and its key. On success the flag is cleared |
| RosApiCrud.Crud.PrepareToPlaceAfter | node_modules/routeros-client/dist/RosApiCrud.js:387-398 | A move is made iff `placeAfter` is set and the reply is one item with a truthy `ret`; `placeAfter` is then cleared. The reply is returned unchanged |
| RosApiCrud.Crud.RecoverData | node_modules/routeros-client/dist/RosApiCrud.js:462-485 | With no ids the whole menu is printed; otherwise one `print` per id. The answer is the list when the ids hold a `,`, else its first item |
| RosApiCrud.RecoverOneId | node_modules/routeros-client/dist/RosApiCrud.js:468-482 | One id without `,` is read back by one `print ?.id=` and answers its first item |
| RosApiCrud.RecoverJoinedIds | node_modules/routeros-client/dist/RosApiCrud.js:468-483 | Ids joined by `,` are read back one `print` per id, in order, and answer the whole list |
| RosApiCrud.Crud.QueryForIdsIfNeeded | node_modules/routeros-client/dist/RosApiCrud.js:492-508 | Given ids are kept. Otherwise the `.id` of every selected item is printed, the builder is emptied, and `=numbers=<ids>` is put back when any were found |
| RosApiCrud.Crud.Target | node_modules/routeros-client/dist/RosApiCrud.js:57-63 | A truthy `ids` is pushed as `=numbers=`, then the last id word is taken or the ids are queried |
| RosApiCrud.TargetOfPlainId | node_modules/routeros-client/dist/RosApiCrud.js:58-63 | A plain id becomes the only `=numbers=` word and the target; nothing is sent |
| RosApiCrud.Crud.Exec | node_modules/routeros-client/dist/RosApiCrud.js:102-113 | `exec` follows its specification function, and without data, flag or `placeAfter` it sends exactly its sentence. On success the builder is empty and unflagged; on failure the words stay |
| RosApiCrud.ExecutedPlain | node_modules/routeros-client/dist/RosApiCrud.js:102-113 | Without translation and without `placeAfter`, `exec` writes its sentence once and answers the normalised reply |
| RosApiCrud.Crud.BeginCommand | node_modules/routeros-client/dist/RosApiCrud.js:105-106 | The sentence of the builder as it stands, then its lookups sent; the words, proplist and flag are kept |
| RosApiCrud.Crud.BeginExec | node_modules/routeros-client/dist/RosApiCrud.js:102-106 | The data's words are added, and the sentence's lookups are sent |
| RosApiCrud.Crud.FinishExec | node_modules/routeros-client/dist/RosApiCrud.js:106-112 | References are resolved, the sentence is written, and a pending `placeAfter` is served |
| RosApiCrud.CommandSentence | node_modules/routeros-client/dist/RosApiCrud.js:260-264 | A command other than `print`/`getall` with one `=` word is sent as exactly those two words |
| RosApiCrud.ActedPlain | node_modules/routeros-client/dist/RosApiCrud.js:63-68 | A plain command that went through is followed by the read-back of its targets, and answers that read-back |
| RosApiCrud.ActedOnPlainId | node_modules/routeros-client/dist/RosApiCrud.js:57-69 | `disable(id)`/`enable(id)` on a fresh builder sends the command naming the id, then reads the id back and answers what was read |
| RosApiCrud.Crud.ExecRecover | node_modules/routeros-client/dist/RosApiCrud.js:65-68 | The command, then the targets read back when it succeeded. On success the builder is emptied and unflagged; on a failed reference it keeps its words and proplist, flagged |
| RosApiCrud.Crud.ActOnFound | node_modules/routeros-client/dist/RosApiCrud.js:143-147 | The data's words are added, then the command and the read-back of the targets. On success the builder is emptied and unflagged; on a failed reference it keeps those words and its proplist, flagged |
| RosApiCrud.Crud.ActOn | node_modules/routeros-client/dist/RosApiCrud.js:57-69 | The shared shape of `disable`, `enable` and `update`: targets, command, read-back. On success the builder is emptied and unflagged; on a failed reference it keeps the targeted words, with the data's, flagged |
| RosApiCrud.Crud.Disable | node_modules/routeros-client/dist/RosApiCrud.js:57-69 | Answer, sentences and `placeAfter` as `ActedOn` with `disable`. On success the builder is emptied and unflagged; on a failed reference it keeps the targeted words, flagged |
| RosApiCrud.Crud.Enable | node_modules/routeros-client/dist/RosApiCrud.js:83-95 | Answer, sentences and `placeAfter` as `ActedOn` with `enable`. On success the builder is emptied and unflagged; on a failed reference it keeps the targeted words, flagged |
| RosApiCrud.Crud.Update | node_modules/routeros-client/dist/RosApiCrud.js:136-149 | As `ActedOn` with `set` and the data's words after the targets. On success the builder is emptied and unflagged; on a failed reference it keeps those words, flagged |
| RosApiCrud.Crud.Remove | node_modules/routeros-client/dist/RosApiCrud.js:187-202 | The targets are read back first, then removed. The answer is what was read, or the removal's error. On success the builder is emptied and unflagged; on a failed reference it keeps the targeted words, flagged |
| RosApiCrud.Crud.RemoveFound | node_modules/routeros-client/dist/RosApiCrud.js:194-201 | Read-back, then `remove`, once the targets are known. On success the builder is emptied and unflagged; on a failed reference it keeps its words, flagged |
| RosApiCrud.Crud.MoveAbove | node_modules/routeros-client/dist/RosApiCrud.js:119-129 | The entries of the last id word are moved before a truthy `to`, then read back. On success the builder is emptied and unflagged; on a failed reference it keeps the words with the destination word, flagged |
| RosApiCrud.Crud.MoveFound | node_modules/routeros-client/dist/RosApiCrud.js:121-128 | The `move` sentence with `=destination=` when `to` is truthy, then the read-back. On success the builder is emptied and unflagged; on a failed reference it keeps those words, flagged |
| RosApiCrud.Crud.MoveEntry | node_modules/routeros-client/dist/RosApiCrud.js:227-240 | The `move` sentence names `from` and, when truthy, `to` (a null `to` moves to the end); then the moved ids are read back. The builder ends empty |
| RosApiCrud.Crud.PushMoveWords | node_modules/routeros-client/dist/RosApiCrud.js:228-235 | `from` as an array in `=numbers=`, and a truthy `to` as `=destination=` |
| RosApiCrud.Crud.Add | node_modules/routeros-client/dist/RosApiCrud.js:37-43 | Answer, sentences and `placeAfter` as `Added`: the `add` command, then the entry named by the first reply's `ret` read back; no reply answers null. The builder is emptied once the command went through, and keeps its words with the data's, flagged, when a reference failed |
| RosApiCrud.Crud.AddCommand | node_modules/routeros-client/dist/RosApiCrud.js:38 | The command half of `add`: the data's words, the `add` sentence, its lookups and placement, as `exec` states them. Its only failures are references; on success the builder is emptied and unflagged; on a failed reference it keeps the words with the data's, flagged |
| RosApiCrud.AddedOf | node_modules/routeros-client/dist/RosApiCrud.js:37-43 | `add` fails iff its command fails. Otherwise it is the command followed by what is made of the reply |
| RosApiCrud.Crud.RecoverAdded | node_modules/routeros-client/dist/RosApiCrud.js:38-42 | No reply item answers null. A text `ret` is read back; any other truthy `ret` fails |
| RosApiCrud.Crud.Unset | node_modules/routeros-client/dist/RosApiCrud.js:156-181 | Answer, sentences and `placeAfter` as `Unsetted`: every property's `unset` is begun on the saved words and then finished; the targets are read back when none failed. On success with at least one property the builder is emptied |
| RosApiCrud.Crud.UnsetFound | node_modules/routeros-client/dist/RosApiCrud.js:162-180 | What `unset` does once the targets are known. On success with at least one property the builder is emptied |
| RosApiCrud.Crud.BeginUnsets | node_modules/routeros-client/dist/RosApiCrud.js:166-176 | Each property's `exec("unset")` is begun on the saved words, in order, until a reference fails. With no failure there is one pending request per property |
| RosApiCrud.Crud.BeginEach | node_modules/routeros-client/dist/RosApiCrud.js:171-176 | The `forEach` stops after all properties or after the one that failed |
| RosApiCrud.BegunAllCount | node_modules/routeros-client/dist/RosApiCrud.js:171-176 | When no property's `unset` failed to begin, there is one pending request per property |
| RosApiCrud.Crud.BeginNext | node_modules/routeros-client/dist/RosApiCrud.js:172-175 | One more property begun extends the outcome from the first `k` properties to the first `k + 1` |
| RosApiCrud.Crud.BeginUnset | node_modules/routeros-client/dist/RosApiCrud.js:173-175 | The saved words plus `=value-name=<dashed name>`, then `exec("unset")` begun |
| RosApiCrud.Crud.FinishAll | node_modules/routeros-client/dist/RosApiCrud.js:177 | Every begun `unset` is finished in order, and the first failure is the answer. When at least one was finished and none failed, the builder is emptied |
| RosApiCrud.Crud.FinishNext | node_modules/routeros-client/dist/RosApiCrud.js:177 | One more `unset` finished. The first failure seen is kept. Without a failure the builder is emptied |
| RosApiCrud.BegunAllStops | node_modules/routeros-client/dist/RosApiCrud.js:171-176 | Once a property fails, no later property is begun |
| RosApiCrud.BegunAllWellFormed | node_modules/routeros-client/dist/RosApiCrud.js:343-363 | Every begun `unset` has one reply per lookup, each at a word of its sentence |
| RosApiCommands.Commands.constructor | node_modules/routeros-client/dist/RosApiCommands.js:17-19 | A fresh builder on the normalised menu |
| RosApiCommands.Commands.Select | node_modules/routeros-client/dist/RosApiCommands.js:25-38 | The proplist becomes `=.proplist=` and the selected fields; nothing else changes |
| RosApiCommands.SelectedFieldAt | node_modules/routeros-client/dist/RosApiCommands.js:29-33 | `id`, `dead` and `nextid` gain a leading `.`; every other field is kept, in place |
| RosApiCommands.ProplistNames | node_modules/routeros-client/dist/RosApiCommands.js:35-36 | Split at `,`, the proplist word names exactly the selected fields, in order |
| RosApiCommands.Commands.Options | node_modules/routeros-client/dist/RosApiCommands.js:61-69 | Every option is added as an `=option=` word |
| RosApiCommands.OptionObject | node_modules/routeros-client/dist/RosApiCommands.js:65-67 | The loop builds the option object |
| RosApiCommands.OptionParamsKeys | node_modules/routeros-client/dist/RosApiCommands.js:65-67 | The object names every option exactly once, with the empty value |
| RosApiCommands.Commands.Where | node_modules/routeros-client/dist/RosApiCommands.js:85-95 | One word per key, appended. A single key takes the value |
| RosApiCommands.Commands.Query | node_modules/routeros-client/dist/RosApiCommands.js:102-104 | `where` with `=` words (also `filter`) |
| RosApiCommands.Commands.WhereRaw | node_modules/routeros-client/dist/RosApiCommands.js:119-122 | The words are appended verbatim, in order |
| RosApiCommands.Commands.WhereThen | node_modules/routeros-client/dist/RosApiCommands.js:129-133 | The condition's words, then the operator words, appended in order |
| RosApiCommands.Commands.OrWhere | node_modules/routeros-client/dist/RosApiCommands.js:129-133 | The condition, then `?#\|`. The flag is raised and `placeAfter` set as the condition's parameters demand |
| RosApiCommands.Commands.OrWhereNot | node_modules/routeros-client/dist/RosApiCommands.js:140-144 | The condition, then `?#!` and `?#\|`. The flag and `placeAfter` follow the condition's parameters |
| RosApiCommands.Commands.AndWhere | node_modules/routeros-client/dist/RosApiCommands.js:151-155 | The condition, then `?#&`. The flag and `placeAfter` follow the condition's parameters |
| RosApiCommands.Commands.AndWhereNot | node_modules/routeros-client/dist/RosApiCommands.js:162-166 | The condition, then `?#!` and `?#&`. The flag and `placeAfter` follow the condition's parameters |
| RosApiCommands.Commands.WhereNot | node_modules/routeros-client/dist/RosApiCommands.js:173-177 | The condition, then `?#!`. The flag and `placeAfter` follow the condition's parameters |
| RosApiCommands.Commands.WhereHigher | node_modules/routeros-client/dist/RosApiCommands.js:184-187 | One `?>key=value` word. An object value raises the flag; `placeAfter` is unchanged |
| RosApiCommands.Commands.WhereLower | node_modules/routeros-client/dist/RosApiCommands.js:194-197 | One `?<key=value` word. An object value raises the flag; `placeAfter` is unchanged |
| RosApiCommands.OperatorKeyKeepsPlaceAfter | node_modules/routeros-client/dist/RosApiCommands.js:184-230 | A key behind `>`, `<` or `-` is never `placeAfter`, so these conditions leave it unchanged |
| RosApiCommands.Commands.WhereExists | node_modules/routeros-client/dist/RosApiCommands.js:203-213 | One `?>key=` word (also `whereNotEmpty`). The flag and `placeAfter` are unchanged |
| RosApiCommands.Commands.WhereEmpty | node_modules/routeros-client/dist/RosApiCommands.js:219-230 | One `?-key=` word (also `whereNotExists`). The flag and `placeAfter` are unchanged |
| RosApiCommands.Commands.Get | node_modules/routeros-client/dist/RosApiCommands.js:236-241 | The data's `?` words, then one `print` sentence sent as it stands. The answer is its normalised reply, and the builder's words are emptied. The flag and `placeAfter` that the data's words set are left for the next verb |
| RosApiCommands.Commands.Find | node_modules/routeros-client/dist/RosApiCommands.js:287-298 | The answer is none iff the print answered nothing; otherwise it is the first item normalised. The flag and `placeAfter` that the data's words set are left for the next verb |
| RosApiCommands.Commands.PurgeAsWritten | node_modules/routeros-client/dist/RosApiCommands.js:318-333 | As written: print `.id` of every entry, then remove the ids read under `.id` of the normalised items |
| RosApiCommands.PurgeIdsLost | node_modules/routeros-client/dist/RosApiCommands.js:323-325 | Normalised items never carry `.id`, so every id read is empty |
| RosApiCommands.PurgeTwoEntries | node_modules/routeros-client/dist/RosApiCommands.js:326-329 | With two entries, the remove sentence as written is `=numbers=,` |
| RosApiCommands.Commands.PurgeBy | node_modules/routeros-client/dist/RosApiCommands.js:318-333 | Two sentences: the print of every `.id`, then a remove naming the values read under the given key, in order |
| RosApiCommands.Commands.Purge | node_modules/routeros-client/dist/RosApiCommands.js:318-333 | Print `.id` of every entry, then remove the ids read under `id` |
| RosApiCommands.PurgeIdsKept | node_modules/routeros-client/dist/RosApiCommands.js:323-325 | Reading `id`, the ids are exactly the printed ones, in order |
| RosApiCommands.PurgeRemovesPrinted | node_modules/routeros-client/dist/RosApiCommands.js:326-329 | The corrected remove word splits back into exactly the printed ids |
| RosApiCommands.Commands.Stream | node_modules/routeros-client/dist/RosApiCommands.js:341-354 | The sentence with the action appended is streamed, and the words and proplist are cleared |
| RosApiCommands.StreamSlashOptional | node_modules/routeros-client/dist/RosApiCommands.js:346-348 | `stream("listen")` and `stream("/listen")` stream the same sentence |
| RosApiModel.Model.constructor | node_modules/routeros-client/dist/RosApiModel.js:14-18 | The builder is on the item's `$$path`, the item is kept, and its properties are copied onto the model |
| RosApiModel.Model.DissolveProperties | node_modules/routeros-client/dist/RosApiModel.js:109-115 | Every property of the item is copied over the model's; an `undefined` item copies nothing |
| RosApiModel.Model.CleanDissolvedProperties | node_modules/routeros-client/dist/RosApiModel.js:98-104 | Every property named by the item is deleted; an `undefined` item deletes nothing |
| RosApiModel.Model.RefreshData | node_modules/routeros-client/dist/RosApiModel.js:120-125 | The old item's properties are replaced by the response's, and the response, `undefined` included, becomes the item |
| RosApiModel.RefreshedProps | node_modules/routeros-client/dist/RosApiModel.js:120-125 | After a refresh: every response property is present with its value, a property only the old item had is gone, and any other is kept |
| RosApiModel.OwnId | node_modules/routeros-client/dist/RosApiModel.js:29 | The item's `id` is passed, falsy iff the item has none or it is falsy |
| RosApiModel.Model.Settle | node_modules/routeros-client/dist/RosApiModel.js:29-33 | A single item, or `undefined`, read back refreshes the model and becomes its item; an error or a list leaves both |
| RosApiModel.Model.Disable | node_modules/routeros-client/dist/RosApiModel.js:28-34 | With no item (`undefined` after an empty read-back) it fails as the source's `TypeError` does, sends nothing and leaves the builder. Otherwise `disable` of the item's own id as `ActedOn` states it, the builder emptied on success or holding the targeted words on a failed reference, then the model refreshed |
| RosApiModel.Model.Enable | node_modules/routeros-client/dist/RosApiModel.js:38-44 | With no item (`undefined` after an empty read-back) it fails as the source's `TypeError` does, sends nothing and leaves the builder. Otherwise `enable` of the item's own id, the builder as for `disable`, then refreshed |
| RosApiModel.Model.Update | node_modules/routeros-client/dist/RosApiModel.js:73-79 | With no item (`undefined` after an empty read-back) it fails as the source's `TypeError` does, sends nothing and leaves the builder. Otherwise `update` of the item's own id with the data's words, the builder as for `disable`, `placeAfter` as the data leaves it, then refreshed |
| RosApiModel.Model.Unset | node_modules/routeros-client/dist/RosApiModel.js:61-67 | With no item (`undefined` after an empty read-back) it fails as the source's `TypeError` does, sends nothing and leaves the builder. Otherwise `unset` of the item's own id as `Unsetted` states it, the builder emptied on success with at least one property, then refreshed |
| RosApiModel.Model.Move | node_modules/routeros-client/dist/RosApiModel.js:50-56 | With no item (`undefined` after an empty read-back) it fails as the source's `TypeError` does, sends nothing and leaves the builder. Otherwise `moveEntry` of the item's own id above `to` (a null `to` moves to the end), the builder emptied, then refreshed |
| RosApiModel.Model.Remove | node_modules/routeros-client/dist/RosApiModel.js:83-85 | With no item (`undefined` after an empty read-back) it fails as the source's `TypeError` does, sends nothing and leaves the builder. Otherwise `remove` of the item's own id as `Removed` states it, the builder emptied on success or holding the targeted words on a failed reference. The model's properties are kept |
| EmployeeForm.Utf16Length | frontend/src/screens/Employee/index.js:23 | A string's JavaScript length is between its character count and twice that |
| EmployeeForm.Utf16LengthBmp | frontend/src/screens/Employee/index.js:23 | Without characters beyond the Basic Multilingual Plane, the length is the character count |
| EmployeeForm.Failures | frontend/src/screens/Employee/index.js:22-36 | One verdict per check, five in all |
| EmployeeForm.Screen.constructor | frontend/src/screens/Employee/index.js:16-19 | The blank form, not loading, no messages, not saved |
| EmployeeForm.Screen.Validate | frontend/src/screens/Employee/index.js:21-39 | The messages of the failed checks, in the order of the checks |
| EmployeeForm.ValidateMeaning | frontend/src/screens/Employee/index.js:21-39 | Each message is shown iff its check fails. There are no messages iff all five pass, and never more than five |
| EmployeeForm.PickedSplit | frontend/src/screens/Employee/index.js:22-38 | The messages of earlier checks come before those of later checks |
| EmployeeForm.PickedHas | frontend/src/screens/Employee/index.js:22-38 | With distinct messages, a message is present iff its check fails |
| EmployeeForm.MessagesDistinct | frontend/src/screens/Employee/index.js:24-36 | The five messages are distinct |
| EmployeeForm.ValidateBlank | frontend/src/screens/Employee/index.js:9-13 | The blank form fails all five checks |
| EmployeeForm.AcceptedPasses | frontend/src/screens/Employee/index.js:25-36 | `ion.popesc` with a ten-character password and `12.34.56` passes every check. A dot is allowed in the name, and dots count in the secondary password |
| EmployeeForm.Screen.SaveEmployee | frontend/src/screens/Employee/index.js:45-51 | With messages: they are shown, nothing is posted and loading is unchanged. Without: no message, loading starts, and the form is posted once. The form is unchanged and "saved" is cleared in both cases |

## Left out

- The raw API connection, its sockets and timeouts are left out. The router is a fixed function from sentences to replies, so router-side errors (`!trap`) and rejected promises of `write` are not modelled. The only errors modelled are a reference that does not decode, a lookup with no answer (`REFNOTFND`), and a `ret` that is not text.
- Promise scheduling is modelled only in the microtask order the code fixes. For example, `unset` begins every property's `exec` before any finishes, and the replies are consumed in order. The one place where the model orders requests differently is `FinishAll`, below. Interleaving with other callers on the same connection is not modelled.
- `null` and `undefined` answers are both `One(None)`.
- Decimal reply values (`\d+\.\d+`) keep their text: `parseFloat` and floating-point numbers are not modelled. Numbers given by callers are integers.
- `JSON.parse` is modelled for flat objects with scalar values and integer numbers, which are what the library itself writes. Nested values, fractions and exponents are refused.
- RosApiCrud.Crud.MoveEntry: stated only when no translation is pending, `placeAfter` is unset, `from` is a string or number and `to` is a scalar or null (null moves to the end). These hold where `prepareToPlaceAfter` calls it. Other uses could recurse through a second `placeAfter`.
- RosApiModel.Model.Move: same conditions as `MoveEntry`. The `move(from, to)` of `RosApiCommands` is `MoveEntry` itself, under the same conditions.
- RosApiModel.Model.Disable: when the read-back answers a list (ids holding `,`), the model is stated to keep its properties. The source would copy the array's indices onto the object. The same holds for `Enable`, `Update`, `Unset` and `Move`.
- RosApiCrud.Crud.FinishAll: the begun `unset` requests are finished one after another, each one's reference substitution, `write` and `prepareToPlaceAfter` move before the next one's. In the source each request's chain advances on its own, so every substitution and `write` goes out before any move. The log therefore places a move sentence, and its read-back, earlier than the router would see it. When several requests resolve a `place-after` reference, the source's move may use a later request's id where the model uses the current one.
- RosApiCrud.Crud.Unset: the request order of its `Promise.all` is that of `FinishAll` above, not the source's. After a failure, or with an empty property list, the builder is not stated. The same holds for `UnsetFound` and for `RosApiModel.Model.Unset`.
- RosApiModel.Model.Disable: the `TypeError` the source throws when the item is `undefined` (an empty read-back) is returned as the error `NoItem`, with nothing sent and the builder unchanged. The same holds for `Enable`, `Update`, `Unset`, `Move` and `Remove`.
- RosApiCommands.Commands.Select: the caller's array is rewritten in place by the source (aliasing). The model keeps only the resulting proplist word.
- RosApiCommands.OptionParamsKeys: key order follows insertion. JavaScript would list integer-like option names first.
- RosApiCommands.Commands.Stream: a function given as the action, the per-packet normalisation, the `parsed-data`/`parsed-error` events and the callback are not modelled. Only the sentence streamed and the builder's reset are.
- `getModel`, `getCurrentMenu` and the debug logging are not modelled. The aliases (`create`, `delete`, `set`, `edit`, `only`, `proplist`, `filter`, `getAll`, `print`, `first`, `getOne`, `getOnly`, `whereNotEmpty`, `whereNotExists`) call the modelled members.
- Lines 281-283 of `makeQuery` test the previous key and are overwritten on line 284, so they have no effect and are not modelled.
- EmployeeForm.Screen.SaveEmployee: the `axios` post and its `then`/`catch`/`finally` (network) are left out. The post is recorded in a ghost list. React's batching of state updates is taken as immediate assignment.
- Unicode: strings are sequences of code points. JavaScript's UTF-16 length is modelled where the form checks lengths. `JSON.stringify` of lone surrogate halves is not modelled.

## Findings

| source | as written | input that shows it | evidently intended | confidence | as-written member | corrected member |
|---|---|---|---|---|---|---|
| node_modules/routeros-client/dist/RosApiCommands.js:323-325 | `purge` reads `result[".id"]` from normalised items, whose leading `.` was stripped (the router's `.id` arrives as `id`) | a menu with two entries `*1` and `*2`: the second sentence is `/remove =numbers=,`, naming no entry | read `result.id`, so the remove names every printed entry, `=numbers=*1,*2` | not executed | RosApiCommands.PurgeIdsLost | RosApiCommands.PurgeRemovesPrinted |
