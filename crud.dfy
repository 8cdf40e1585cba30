/**
 * `RouterOSAPICrud`: the query builder's state (the words gathered so far,
 * the proplist, the translation flag and the pending `placeAfter`), the
 * operations that assemble and send sentences, and the verbs built on them.
 * Promise chains run here as sequential calls; every sentence reaches the
 * raw API in the order its promise would send it.
 */
module RosApiCrud {
  import opened Wrappers
  import opened Text
  import opened Json
  import opened Utils
  import opened Sentences
  import opened RawApi

  /** The ways a command can fail. */
  datatype Error =
    /** A reference lookup found no item (`REFNOTFND`). */
    | RefNotFound(key: string)
    /** `JSON.parse` refused the text of a reference. */
    | BadReference(text: string)
    /** `add` answered with a `ret` that is not text, which has no `split`. */
    | NotText
    /** A model whose item is `undefined` (nothing was read back) has no `id` to read: a `TypeError`. */
    | NoItem

  /** What `recoverDataFromChangedItems` resolves with: one item (or none), or a list. */
  datatype Recovered = One(item: Option<Item>) | Many(items: seq<Item>)

  /** A command whose reference lookups are sent and whose replies are still to be used. */
  datatype Pending = Pending(query: Sentence, consults: seq<Consult>, replies: seq<seq<RawItem>>, translate: bool)

  predicate WellFormed(p: Pending) {
    && |p.consults| == |p.replies|
    && (forall j :: 0 <= j < |p.consults| ==> p.consults[j].index < |p.query|)
    && (!p.translate ==> |p.consults| == 0)
  }
  /** Every command of `ps` is well formed. */
  predicate AllWellFormed(ps: seq<Pending>) {
    |ps| == 0 || (AllWellFormed(ps[..|ps| - 1]) && WellFormed(ps[|ps| - 1]))
  }

  lemma AllWellFormedAppend(ps: seq<Pending>, p: Pending)
    requires AllWellFormed(ps) && WellFormed(p)
    ensures AllWellFormed(ps + [p])
  {
    assert (ps + [p])[..|ps|] == ps;
  }

  /** Every command of `ps` was begun with the translation flag `translate`. */
  predicate AllFlagged(ps: seq<Pending>, translate: bool) {
    |ps| == 0 || (AllFlagged(ps[..|ps| - 1], translate) && ps[|ps| - 1].translate == translate)
  }

  lemma AllFlaggedAppend(ps: seq<Pending>, p: Pending, translate: bool)
    requires AllFlagged(ps, translate) && p.translate == translate
    ensures AllFlagged(ps + [p], translate)
  {
    assert (ps + [p])[..|ps|] == ps;
  }

  lemma {:induction false} AllFlaggedAt(ps: seq<Pending>, translate: bool, k: nat)
    requires AllFlagged(ps, translate) && k < |ps|
    ensures ps[k].translate == translate
  {
    if k < |ps| - 1 {
      var init := ps[..|ps| - 1];
      AllFlaggedAt(init, translate, k);
      assert init[k] == ps[k];
    }
  }

  lemma {:induction false} AllWellFormedPrefix(ps: seq<Pending>, k: nat)
    requires AllWellFormed(ps) && k <= |ps|
    ensures AllWellFormed(ps[..k]) && (k < |ps| ==> WellFormed(ps[k]))
  {
    if k == |ps| {
      assert ps[..k] == ps;
    } else if k < |ps| - 1 {
      var init := ps[..|ps| - 1];
      AllWellFormedPrefix(init, k);
      assert init[..k] == ps[..k] && init[k] == ps[k];
    }
  }


  /** The log entries of the lookups, in order. */
  function LookupLog(path: string, consults: seq<Consult>): (log: seq<Request>)
    ensures |log| == |consults|
  {
    if |consults| == 0 then []
    else LookupLog(path, consults[..|consults| - 1]) + [Sent(LookupSentence(path, consults[|consults| - 1].fields))]
  }

  /** The router's replies to the lookups, in order. */
  function LookupReplies(respond: Sentence -> seq<RawItem>, path: string, consults: seq<Consult>): (rs: seq<seq<RawItem>>)
    ensures |rs| == |consults|
  {
    if |consults| == 0 then []
    else LookupReplies(respond, path, consults[..|consults| - 1]) + [respond(LookupSentence(path, consults[|consults| - 1].fields))]
  }

  /** `placeAfter` after the lookups' parameters were turned into words. */
  function PlaceAfterOfConsults(consults: seq<Consult>, pa: Value): Value {
    if |consults| == 0 then pa
    else PlaceAfterOf(consults[|consults| - 1].fields, PlaceAfterOfConsults(consults[..|consults| - 1], pa))
  }

  /** One more lookup: its log entry, its reply and its effect on `placeAfter` come last. */
  lemma ConsultsStep(respond: Sentence -> seq<RawItem>, path: string, consults: seq<Consult>, c: Consult, pa: Value)
    ensures LookupLog(path, consults + [c]) == LookupLog(path, consults) + [Sent(LookupSentence(path, c.fields))]
    ensures LookupReplies(respond, path, consults + [c]) == LookupReplies(respond, path, consults) + [respond(LookupSentence(path, c.fields))]
    ensures PlaceAfterOfConsults(consults + [c], pa) == PlaceAfterOf(c.fields, PlaceAfterOfConsults(consults, pa))
  {
    assert (consults + [c])[..|consults|] == consults;
  }

  function First(items: seq<Item>): (r: Option<Item>)
    ensures r.None? <==> |items| == 0
    ensures r.Some? ==> r.value == items[0]
  {
    if |items| == 0 then None else Some(items[0])
  }

  function Flatten(xss: seq<seq<RawItem>>): (xs: seq<RawItem>)
    ensures |xss| == 1 ==> xs == xss[0]
  {
    if |xss| == 0 then [] else Flatten(xss[..|xss| - 1]) + xss[|xss| - 1]
  }

  /** The sentence reading one item back by its id. */
  function PrintId(path: string, id: string): Sentence {
    [path + "/print", "?.id=" + id]
  }

  /** The sentences reading each id back, in order. */
  function PrintIds(path: string, ids: seq<string>): (ss: seq<Sentence>)
    ensures |ss| == |ids|
  {
    if |ids| == 0 then [] else PrintIds(path, ids[..|ids| - 1]) + [PrintId(path, ids[|ids| - 1])]
  }

  lemma PrintIdsStep(path: string, ids: seq<string>, k: nat)
    requires k < |ids|
    ensures PrintIds(path, ids[..k + 1]) == PrintIds(path, ids[..k]) + [PrintId(path, ids[k])]
  {
    assert ids[..k + 1][..k] == ids[..k];
  }

  /** The requests that `write` each sentence, in order. */
  function SentAll(sentences: seq<Sentence>): (log: seq<Request>)
    ensures |log| == |sentences|
  {
    if |sentences| == 0 then [] else SentAll(sentences[..|sentences| - 1]) + [Sent(sentences[|sentences| - 1])]
  }

  /** The router's replies to each sentence, in order. */
  function Replies(respond: Sentence -> seq<RawItem>, sentences: seq<Sentence>): (rs: seq<seq<RawItem>>)
    ensures |rs| == |sentences|
  {
    if |sentences| == 0 then [] else Replies(respond, sentences[..|sentences| - 1]) + [respond(sentences[|sentences| - 1])]
  }

  /** One more sentence: its log entry and its reply come last. */
  lemma SentAppend(respond: Sentence -> seq<RawItem>, sentences: seq<Sentence>, s: Sentence)
    ensures SentAll(sentences + [s]) == SentAll(sentences) + [Sent(s)]
    ensures Replies(respond, sentences + [s]) == Replies(respond, sentences) + [respond(s)]
  {
    assert (sentences + [s])[..|sentences|] == sentences;
  }

  /** The text of each reply item's `id` (`data + ""` prints a missing one as nothing). */
  function IdTexts(items: seq<Item>): (ts: seq<string>)
    ensures |ts| == |items|
  {
    if |items| == 0 then []
    else
      var last := items[|items| - 1];
      IdTexts(items[..|items| - 1]) + [if "id" in last then FieldText(last["id"]) else ""]
  }

  /** The ids of reply items joined by `,` (`data + ""`): an item without `id` adds an empty piece. */
  function IdsText(items: seq<Item>): string {
    Join(",", IdTexts(items))
  }

  /** `from` as `moveEntry` wraps it into an array. */
  function AsArray(v: Value): (r: Value)
    ensures r.Arr?
  {
    if v.Arr? then v else Arr([v])
  }

  // ---- what a command does, as functions of the router's replies ----

  /** `recoverDataFromChangedItems` reads the whole menu back when it has no ids (null or empty text). */
  predicate ReadsAll(ids: Option<string>) {
    ids.None? || ids.value == ""
  }

  /** The sentences `recoverDataFromChangedItems(ids)` sends: one `print` of the menu when it reads
      everything back, otherwise one `print` per piece of `ids` split at `,`. */
  function RecoverSentences(path: string, ids: Option<string>): (ss: seq<Sentence>)
    ensures |ss| >= 1
  {
    if ReadsAll(ids) then [[path + "/print"]] else PrintIds(path, Split(ids.value, ','))
  }

  /** What `recoverDataFromChangedItems(ids)` resolves with: the replies flattened and normalised, the whole
      list when `ids` holds a `,`, otherwise its first item. */
  function Recovery(respond: Sentence -> seq<RawItem>, path: string, snakeCase: bool, ids: Option<string>): Recovered {
    var ss := RecoverSentences(path, ids);
    var items := TreatAll(path, Flatten(Replies(respond, ss)), snakeCase);
    if !ReadsAll(ids) && ',' in ids.value then Many(items) else One(First(items))
  }

  /** The builder after the target of a verb is known, and the requests that took. */
  datatype Targeted = Targeted(ids: string, query: seq<string>, proplist: string, log: seq<Request>)

  /** `queryForIdsIfNeeded(ids)`: given ids are kept; otherwise the menu is printed for the `.id` of every
      item the words select, the builder is emptied and `=numbers=<ids>` put back when any were found. */
  function IdsQueried(respond: Sentence -> seq<RawItem>, path: string, snakeCase: bool,
                      query: seq<string>, proplist: string, ids: Option<string>): Targeted
  {
    if !ReadsAll(ids) then Targeted(ids.value, query, proplist, [])
    else
      var q := FullQueryOf(path, "/print", proplist, query + ["=.proplist=.id"]);
      var text := IdsText(TreatAll(path, respond(q), snakeCase));
      Targeted(text, if text != "" then ["=numbers=" + text] else [], "", [Sent(q)])
  }

  /** The words after a verb's `ids` argument is pushed: a truthy argument becomes `=numbers=<its text>`. */
  function TargetWords(query: seq<string>, ids: Value): seq<string> {
    if Truthy(ids) then query + ["=numbers=" + JsText(Stringified(ids))] else query
  }

  /** The prologue the verbs share: push the `ids` argument, take the last id word's value, query for ids
      when there is none. */
  function TargetOf(respond: Sentence -> seq<RawItem>, path: string, snakeCase: bool,
                    query: seq<string>, proplist: string, ids: Value): Targeted
  {
    var words := TargetWords(query, ids);
    IdsQueried(respond, path, snakeCase, words, proplist, LastIdValue(words))
  }

  /** `prepareToPlaceAfter` moves an entry when `placeAfter` is set and the reply is one item with a truthy `ret`. */
  predicate MovePlanned(pa: Value, results: seq<Item>) {
    Truthy(pa) && |results| == 1 && "ret" in results[0] && FieldTruthy(results[0]["ret"])
  }

  /** The words `moveEntry(from, to)` adds to the builder. */
  function MoveWords(from: Value, to: Value): seq<string> {
    ["=numbers=" + JsText(Stringified(AsArray(from)))]
    + (if Truthy(to) then ["=destination=" + JsText(Stringified(to))] else [])
  }

  /** The requests of `moveEntry(from, to)`: the `move` sentence, then the read-back of the moved ids. */
  function MoveLog(path: string, query: seq<string>, proplist: string, from: Value, to: Value): seq<Request> {
    var words := query + MoveWords(from, to);
    [Sent(FullQueryOf(path, "/" + "move", proplist, words))] + SentAll(RecoverSentences(path, LastIdValue(words)))
  }

  /** What `prepareToPlaceAfter(results)` sends, on the builder `write` has just emptied. */
  function PlaceLog(path: string, pa: Value, results: seq<Item>): seq<Request> {
    if MovePlanned(pa, results) then MoveLog(path, [], "", pa, FieldValue(results[0]["ret"])) else []
  }

  /** `placeAfter` after `prepareToPlaceAfter`: a planned move clears it. */
  function PlacedAfter(pa: Value, results: seq<Item>): Value {
    if MovePlanned(pa, results) then Null else pa
  }

  /** The outcome of part of a command: its answer, the requests it sent and `placeAfter` at its end. */
  datatype Run<T> = Run(result: Result<T, Error>, log: seq<Request>, placeAfter: Value)

  /** `translateQueryIntoId` up to the replies of its lookups: nothing when the flag is clear; otherwise one
      lookup per reference word until a reference does not decode. */
  function Begun(respond: Sentence -> seq<RawItem>, path: string, query: Sentence, translate: bool, pa: Value): (b: Run<Pending>)
    ensures b.result.Ok? ==> WellFormed(b.result.value) && b.result.value.query == query
  {
    if !translate || |query| == 0 then Run(Ok(Pending(query, [], [], false)), [], pa)
    else
      var scan := ScanRefs(query, |query|);
      var lookups := LookupLog(path, scan.consults);
      var pa' := PlaceAfterOfConsults(scan.consults, pa);
      if scan.failed.Some? then Run(Err(BadReference(scan.failed.value)), lookups, pa')
      else
        ScanRefsBelow(query, |query|);
        Run(Ok(Pending(query, scan.consults, LookupReplies(respond, path, scan.consults), true)), lookups, pa')
  }

  /** `write(query)` and `prepareToPlaceAfter` of its normalised reply. */
  function Written(respond: Sentence -> seq<RawItem>, path: string, snakeCase: bool, query: Sentence, pa: Value): Run<seq<Item>> {
    var results := TreatAll(path, respond(query), snakeCase);
    Run(Ok(results), [Sent(query)] + PlaceLog(path, pa, results), PlacedAfter(pa, results))
  }

  /** The rest of `exec` once the lookups are answered: the references are resolved, then the sentence written. */
  function Finished(respond: Sentence -> seq<RawItem>, path: string, snakeCase: bool, p: Pending, pa: Value): Run<seq<Item>>
    requires WellFormed(p)
  {
    match Resolve(p.query, p.consults, p.replies, pa)
    case Unresolved(key, pa') => Run(Err(RefNotFound(key)), [], pa')
    case Resolved(q, pa') => Written(respond, path, snakeCase, q, pa')
  }

  /** `exec` from its assembled sentence on, given the flag and `placeAfter` that `makeQuery` left. */
  function Executed(respond: Sentence -> seq<RawItem>, path: string, snakeCase: bool, query: Sentence, translate: bool, pa: Value): (e: Run<seq<Item>>)
    ensures e.result.Err? ==> translate && (e.result.error.BadReference? || e.result.error.RefNotFound?)
  {
    var b := Begun(respond, path, query, translate, pa);
    if b.result.Err? then Run(Err(b.result.error), b.log, b.placeAfter)
    else
      var f := Finished(respond, path, snakeCase, b.result.value, b.placeAfter);
      Run(f.result, b.log + f.log, f.placeAfter)
  }

  /** Without translation and with no pending `placeAfter`, `exec` writes its sentence and nothing else. */
  lemma ExecutedPlain(respond: Sentence -> seq<RawItem>, path: string, snakeCase: bool, query: Sentence)
    ensures var e := Executed(respond, path, snakeCase, query, false, Null);
      e == Run(Ok(TreatAll(path, respond(query), snakeCase)), [Sent(query)], Null)
  {
    var results := TreatAll(path, respond(query), snakeCase);
    assert Begun(respond, path, query, false, Null) == Run(Ok(Pending(query, [], [], false)), [], Null);
    assert Finished(respond, path, snakeCase, Pending(query, [], [], false), Null) == Run(Ok(results), [Sent(query)] + [], Null);
    assert [] + ([Sent(query)] + []) == [Sent(query)];
  }

  /** The words, flag and `placeAfter` of `exec`'s optional `data`. */
  function DataWords(data: Option<Params>): seq<string> {
    if data.Some? then ParamWords(data.value, false) else []
  }

  predicate DataFlag(data: Option<Params>) {
    data.Some? && AnyNeedsTranslation(data.value)
  }

  function DataPlaceAfter(data: Option<Params>, pa: Value): Value {
    if data.Some? then PlaceAfterOf(data.value, pa) else pa
  }

  /** A verb's command on its targets, then the read-back of the targets when the command succeeded. */
  function Acted(respond: Sentence -> seq<RawItem>, path: string, snakeCase: bool, ids: string, run: Run<seq<Item>>): Run<Recovered> {
    if run.result.Err? then Run(Err(run.result.error), run.log, run.placeAfter)
    else Run(Ok(Recovery(respond, path, snakeCase, Some(ids))), run.log + SentAll(RecoverSentences(path, Some(ids))), run.placeAfter)
  }

  /** What `add` reads back: nothing for a falsy `ret`, the text of a text `ret`; any other `ret` has no `split`. */
  function AddedIds(item: Item): Result<Option<string>, Error> {
    if "ret" !in item || !FieldTruthy(item["ret"]) then Ok(None)
    else if item["ret"].Text? then Ok(Some(item["ret"].s))
    else Err(NotText)
  }

  // ---- the verbs, as functions of the builder they start from ----

  /** The builder's fields that a verb starts from. */
  datatype Builder = Builder(query: seq<string>, proplist: string, translate: bool, placeAfter: Value)

  /** The builder a verb leaves: emptied by the `write` when its sentence went out (`ok`); otherwise a
      reference failed, and the words `query` and the `.proplist` word `proplist` it had assembled are
      still there, with the flag raised. */
  predicate LeftBehind(ok: bool, b: Builder, query: seq<string>, proplist: string) {
    if ok then b.query == [] && b.proplist == "" && !b.translate
    else b.query == query && b.proplist == proplist && b.translate
  }

  /** The translation flag once a verb's `ids` argument is pushed. */
  predicate TargetFlag(b: Builder, ids: Value) {
    b.translate || (Truthy(ids) && NeedsTranslation(ids))
  }

  /** `disable(ids)` and `enable(ids)` (no data) and `update(data, ids)` (`set` with the data's words): the
      targets, then the command, then the targets read back when the command succeeded. */
  function ActedOn(respond: Sentence -> seq<RawItem>, path: string, snakeCase: bool, b: Builder,
                   ids: Value, command: string, data: Option<Params>): Run<Recovered>
  {
    var t := TargetOf(respond, path, snakeCase, b.query, b.proplist, ids);
    var e := Executed(respond, path, snakeCase, FullQueryOf(path, "/" + command, t.proplist, t.query + DataWords(data)),
                      TargetFlag(b, ids) || DataFlag(data), DataPlaceAfter(data, b.placeAfter));
    var a := Acted(respond, path, snakeCase, t.ids, e);
    Run(a.result, t.log + a.log, a.placeAfter)
  }

  /** What `remove` does once its targets `found` are known: they are read back first, then removed. */
  function RemovedFound(respond: Sentence -> seq<RawItem>, path: string, snakeCase: bool, proplist: string, query: seq<string>,
                        translate: bool, pa: Value, found: string): Run<Recovered> {
    var e := Executed(respond, path, snakeCase, FullQueryOf(path, "/" + "remove", proplist, query), translate, pa);
    Run(if e.result.Err? then Err(e.result.error) else Ok(Recovery(respond, path, snakeCase, Some(found))),
        SentAll(RecoverSentences(path, Some(found))) + e.log, e.placeAfter)
  }

  /** `remove(ids)`: the targets are read back first, then removed; the answer is what was read. */
  function Removed(respond: Sentence -> seq<RawItem>, path: string, snakeCase: bool, b: Builder, ids: Value): Run<Recovered> {
    var t := TargetOf(respond, path, snakeCase, b.query, b.proplist, ids);
    var u := RemovedFound(respond, path, snakeCase, t.proplist, t.query, TargetFlag(b, ids), b.placeAfter, t.ids);
    Run(u.result, t.log + u.log, u.placeAfter)
  }

  /** What `moveAbove` does once the moved entries `found` are known: the destination word joined to
      `query` when `to` is truthy, the `move` command, then the moved entries read back. */
  function MovedTo(respond: Sentence -> seq<RawItem>, path: string, snakeCase: bool, proplist: string, query: seq<string>,
                   translate: bool, pa: Value, to: Value, found: string): Run<Recovered> {
    Acted(respond, path, snakeCase, found, Executed(respond, path, snakeCase, FullQueryOf(path, "/" + "move", proplist, DestinationWords(query, to)), translate, pa))
  }

  /** The words of `moveAbove`'s command: `to` joined as `=destination=` when it is truthy. */
  function DestinationWords(query: seq<string>, to: Value): seq<string> {
    if Truthy(to) then query + ["=destination=" + JsText(to)] else query
  }

  /** `moveAbove(to)`: the queried entries, the `move` command with a truthy `to` (as its text) as
      `=destination=`, then the moved entries read back. */
  function MovedAbove(respond: Sentence -> seq<RawItem>, path: string, snakeCase: bool, b: Builder, to: Value): Run<Recovered> {
    var t := IdsQueried(respond, path, snakeCase, b.query, b.proplist, LastIdValue(b.query));
    var a := MovedTo(respond, path, snakeCase, t.proplist, t.query, b.translate, b.placeAfter, to, t.ids);
    Run(a.result, t.log + a.log, a.placeAfter)
  }

  /** The properties `unset` clears: a single name (a string argument) or a list of names. */
  datatype Properties = Property(name: string) | PropertyList(names: seq<string>)

  /** A string argument is wrapped into a list. */
  function PropertyNames(properties: Properties): seq<string> {
    match properties
    case Property(name) => [name]
    case PropertyList(names) => names
  }

  /** The `unset` commands begun so far, the failure that stopped them, their lookups and `placeAfter`. */
  datatype Begins = Begins(pendings: seq<Pending>, failure: Option<Error>, log: seq<Request>, placeAfter: Value)

  /** The `forEach` of `unset`: per property, `exec("unset")` is begun on the saved words plus
      `=value-name=<the property in dashed case>`; the first reference that does not decode stops it. */
  function BegunAll(respond: Sentence -> seq<RawItem>, path: string, proplist: string, saved: seq<string>,
                    names: seq<string>, translate: bool, pa: Value): Begins
  {
    if |names| == 0 then Begins([], None, [], pa)
    else BeginStep(respond, path, proplist, saved, BegunAll(respond, path, proplist, saved, names[..|names| - 1], translate, pa),
                   names[|names| - 1], translate)
  }

  /** One more property's `unset` begun after `prev`, unless an earlier one already failed. */
  function BeginStep(respond: Sentence -> seq<RawItem>, path: string, proplist: string, saved: seq<string>,
                     prev: Begins, name: string, translate: bool): Begins
  {
    if prev.failure.Some? then prev
    else
      var b := Begun(respond, path, FullQueryOf(path, "/" + "unset", proplist, saved + ["=value-name=" + ToDashedCase(name)]), translate, prev.placeAfter);
      match b.result
      case Err(e) => Begins(prev.pendings, Some(e), prev.log + b.log, b.placeAfter)
      case Ok(p) => Begins(prev.pendings + [p], None, prev.log + b.log, b.placeAfter)
  }

  lemma BegunAllStep(respond: Sentence -> seq<RawItem>, path: string, proplist: string, saved: seq<string>,
                     names: seq<string>, k: nat, translate: bool, pa: Value)
    requires k < |names|
    ensures BegunAll(respond, path, proplist, saved, names[..k + 1], translate, pa)
      == BeginStep(respond, path, proplist, saved, BegunAll(respond, path, proplist, saved, names[..k], translate, pa), names[k], translate)
  {
    assert names[..k + 1][..k] == names[..k];
  }

  /** Once a property's reference fails to decode, no later property is begun. */
  lemma {:induction false} BegunAllStops(respond: Sentence -> seq<RawItem>, path: string, proplist: string, saved: seq<string>,
                                         names: seq<string>, k: nat, translate: bool, pa: Value)
    requires k <= |names|
    requires k == |names| || BegunAll(respond, path, proplist, saved, names[..k], translate, pa).failure.Some?
    ensures BegunAll(respond, path, proplist, saved, names, translate, pa) == BegunAll(respond, path, proplist, saved, names[..k], translate, pa)
  {
    if k == |names| {
      assert names[..k] == names;
    } else {
      var init := names[..|names| - 1];
      assert init[..k] == names[..k];
      BegunAllStops(respond, path, proplist, saved, init, k, translate, pa);
    }
  }

  /** When no property failed, one command was begun per property. */
  lemma {:induction false} BegunAllCount(respond: Sentence -> seq<RawItem>, path: string, proplist: string, saved: seq<string>,
                                         names: seq<string>, translate: bool, pa: Value)
    ensures var bs := BegunAll(respond, path, proplist, saved, names, translate, pa);
      bs.failure.None? ==> |bs.pendings| == |names|
  {
    if |names| > 0 {
      BegunAllCount(respond, path, proplist, saved, names[..|names| - 1], translate, pa);
    }
  }

  /** Every begun command is well formed: one reply per lookup, each lookup at a word of the sentence. */
  lemma {:induction false} BegunAllWellFormed(respond: Sentence -> seq<RawItem>, path: string, proplist: string, saved: seq<string>,
                                              names: seq<string>, translate: bool, pa: Value)
    ensures AllWellFormed(BegunAll(respond, path, proplist, saved, names, translate, pa).pendings)
  {
    if |names| > 0 {
      var init := names[..|names| - 1];
      BegunAllWellFormed(respond, path, proplist, saved, init, translate, pa);
      var prev := BegunAll(respond, path, proplist, saved, init, translate, pa);
      if prev.failure.None? {
        var words := saved + ["=value-name=" + ToDashedCase(names[|names| - 1])];
        var b := Begun(respond, path, FullQueryOf(path, "/" + "unset", proplist, words), translate, prev.placeAfter);
        if b.result.Ok? {
          AllWellFormedAppend(prev.pendings, b.result.value);
        }
      }
    }
  }

  /** The outcome of finishing the begun commands: the first failure, the requests and `placeAfter`. */
  datatype Finishes = Finishes(failure: Option<Error>, log: seq<Request>, placeAfter: Value)

  /** `Promise.all` over the begun commands: each is finished in turn, whatever the others did, and the
      first failure is the answer. */
  /** One more pending `unset` finished after `prev`; the first failure is the one kept. */
  function FinishStep(respond: Sentence -> seq<RawItem>, path: string, snakeCase: bool, prev: Finishes, p: Pending): Finishes
    requires WellFormed(p)
  {
    var f := Finished(respond, path, snakeCase, p, prev.placeAfter);
    Finishes(if prev.failure.None? && f.result.Err? then Some(f.result.error) else prev.failure, prev.log + f.log, f.placeAfter)
  }

  function FinishedAll(respond: Sentence -> seq<RawItem>, path: string, snakeCase: bool, ps: seq<Pending>, pa: Value): Finishes
    requires AllWellFormed(ps)
  {
    if |ps| == 0 then Finishes(None, [], pa)
    else FinishStep(respond, path, snakeCase, FinishedAll(respond, path, snakeCase, ps[..|ps| - 1], pa), ps[|ps| - 1])
  }

  lemma FinishedAllStep(respond: Sentence -> seq<RawItem>, path: string, snakeCase: bool, ps: seq<Pending>, k: nat, pa: Value)
    requires k < |ps| && AllWellFormed(ps[..k + 1])
    ensures AllWellFormed(ps[..k]) && WellFormed(ps[k])
    ensures FinishedAll(respond, path, snakeCase, ps[..k + 1], pa)
      == FinishStep(respond, path, snakeCase, FinishedAll(respond, path, snakeCase, ps[..k], pa), ps[k])
  {
    assert ps[..k + 1][..k] == ps[..k];
    assert ps[..k + 1][k] == ps[k];
  }

  /** What `unset` does once its targets `found` are known, from the words `query`: every property's
      `unset` begun and then finished, then the targets read back when none failed. */
  function UnsetDone(respond: Sentence -> seq<RawItem>, path: string, snakeCase: bool, proplist: string, query: seq<string>,
                     translate: bool, pa: Value, names: seq<string>, found: string): Run<Recovered>
  {
    var bs := BegunAll(respond, path, proplist, query, names, translate, pa);
    BegunAllWellFormed(respond, path, proplist, query, names, translate, pa);
    var fs := FinishedAll(respond, path, snakeCase, bs.pendings, bs.placeAfter);
    var log := bs.log + fs.log;
    if bs.failure.Some? then Run(Err(bs.failure.value), log, fs.placeAfter)
    else if fs.failure.Some? then Run(Err(fs.failure.value), log, fs.placeAfter)
    else Run(Ok(Recovery(respond, path, snakeCase, Some(found))), log + SentAll(RecoverSentences(path, Some(found))), fs.placeAfter)
  }

  /** `unset(properties, ids)`: the targets, then the rest as `UnsetDone`. */
  function Unsetted(respond: Sentence -> seq<RawItem>, path: string, snakeCase: bool, b: Builder, properties: Properties, ids: Value): Run<Recovered> {
    var t := TargetOf(respond, path, snakeCase, b.query, b.proplist, ids);
    var u := UnsetDone(respond, path, snakeCase, t.proplist, t.query, TargetFlag(b, ids), b.placeAfter, PropertyNames(properties), t.ids);
    Run(u.result, t.log + u.log, u.placeAfter)
  }

  /** `add(data)`: the `add` command, then the entry named by the first reply's `ret` read back; no reply
      answers null. */
  function Added(respond: Sentence -> seq<RawItem>, path: string, snakeCase: bool, b: Builder, data: Params): Run<Recovered> {
    var e := Executed(respond, path, snakeCase, FullQueryOf(path, "/" + "add", b.proplist, b.query + DataWords(Some(data))),
                      b.translate || DataFlag(Some(data)), DataPlaceAfter(Some(data), b.placeAfter));
    if e.result.Err? then Run(Err(e.result.error), e.log, e.placeAfter)
    else
      var a := AddedFrom(respond, path, snakeCase, e.result.value, e.placeAfter);
      Run(a.result, e.log + a.log, a.placeAfter)
  }

  /** `add` is its command, then, when that went through, what is made of the reply. */
  lemma AddedOf(respond: Sentence -> seq<RawItem>, path: string, snakeCase: bool, b: Builder, data: Params,
                e: Run<seq<Item>>, a: Run<Recovered>)
    requires e == Executed(respond, path, snakeCase, FullQueryOf(path, "/" + "add", b.proplist, b.query + DataWords(Some(data))),
                           b.translate || DataFlag(Some(data)), DataPlaceAfter(Some(data), b.placeAfter))
    requires e.result.Ok? ==> a == AddedFrom(respond, path, snakeCase, e.result.value, e.placeAfter)
    ensures Added(respond, path, snakeCase, b, data)
         == if e.result.Err? then Run(Err(e.result.error), e.log, e.placeAfter) else Run(a.result, e.log + a.log, a.placeAfter)
  {
  }

  /** What `add` makes of the reply to its sentence: no item gives nothing, otherwise the ids of the first
      item are read back. */
  function AddedFrom(respond: Sentence -> seq<RawItem>, path: string, snakeCase: bool, results: seq<Item>, pa: Value): Run<Recovered> {
    if |results| == 0 then Run(Ok(One(None)), [], pa)
    else match AddedIds(results[0])
      case Err(err) => Run(Err(err), [], pa)
      case Ok(ids) => Run(Ok(Recovery(respond, path, snakeCase, ids)), SentAll(RecoverSentences(path, ids)), pa)
  }

  /** An id without `,` is read back by one `print` of that id, and the answer is its first item. */
  lemma RecoverOneId(respond: Sentence -> seq<RawItem>, path: string, snakeCase: bool, id: string)
    requires id != "" && ',' !in id
    ensures RecoverSentences(path, Some(id)) == [PrintId(path, id)]
    ensures Recovery(respond, path, snakeCase, Some(id)) == One(First(TreatAll(path, respond(PrintId(path, id)), snakeCase)))
  {
    SplitNoSep(id, ',');
    assert PrintIds(path, [id]) == PrintIds(path, [])  + [PrintId(path, id)];
    assert Replies(respond, [PrintId(path, id)]) == [respond(PrintId(path, id))];
  }

  /** Ids joined by `,` are read back by one `print` per id, in order, and the answer is the whole list. */
  lemma RecoverJoinedIds(respond: Sentence -> seq<RawItem>, path: string, snakeCase: bool, ids: seq<string>)
    requires |ids| >= 2
    requires forall k :: 0 <= k < |ids| ==> ',' !in ids[k]
    ensures RecoverSentences(path, Some(Join(",", ids))) == PrintIds(path, ids)
    ensures Recovery(respond, path, snakeCase, Some(Join(",", ids))).Many?
  {
    var text := Join(",", ids);
    assert text == ids[0] + "," + Join(",", ids[1..]);
    assert text[|ids[0]|] == ',';
    JoinSplit(ids, ',');
  }

  /** A plain id given to a verb becomes its `=numbers=` word and is taken as the target; nothing is
      sent to find it. */
  lemma TargetOfPlainId(respond: Sentence -> seq<RawItem>, path: string, snakeCase: bool, id: string)
    requires id != "" && '=' !in id
    ensures TargetOf(respond, path, snakeCase, [], "", Str(id)) == Targeted(id, ["=numbers=" + id], "", [])
  {
    var words := ["=numbers=" + id];
    assert TargetWords([], Str(id)) == words;
    NumbersWordIsIdWord(id);
    LastIdValueOfWord([], "=numbers", id);
    assert "=numbers" + "=" + id == "=numbers=" + id;
    assert [] + words == words;
  }

  /** The sentence of a command other than `print`/`getall` with one `=` word and no `.proplist`. */
  lemma CommandSentence(path: string, command: string, word: string)
    requires path == "" || path[0] != '?'
    requires !IsPrint(path + "/" + command)
    requires |word| > 0 && word[0] == '='
    ensures FullQueryOf(path, "/" + command, "", [word]) == [path + "/" + command, word]
  {
    var w0 := path + ("/" + command);
    assert w0 == path + "/" + command;
    assert |w0| > 0 && w0[0] != '?';
    var q := FullQueryOf(path, "/" + command, "", [word]);
    assert q[0] == QuestionToEquals(w0) && q[1] == QuestionToEquals(word);
  }

  /** A plain command that went through is followed by the read-back of its targets. */
  lemma ActedPlain(respond: Sentence -> seq<RawItem>, path: string, snakeCase: bool, ids: string, q: Sentence)
    ensures Acted(respond, path, snakeCase, ids, Executed(respond, path, snakeCase, q, false, Null))
      == Run(Ok(Recovery(respond, path, snakeCase, Some(ids))), [Sent(q)] + SentAll(RecoverSentences(path, Some(ids))), Null)
  {
    ExecutedPlain(respond, path, snakeCase, q);
  }

  /** `disable(id)`/`enable(id)` on a fresh builder with a plain id: one sentence of the command naming
      the id, then the read-back of the id; the answer is what was read back. */
  lemma ActedOnPlainId(respond: Sentence -> seq<RawItem>, path: string, snakeCase: bool, id: string, command: string)
    requires id != "" && '=' !in id
    requires path == "" || path[0] != '?'
    requires !IsPrint(path + "/" + command)
    ensures var v := ActedOn(respond, path, snakeCase, Builder([], "", false, Null), Str(id), command, None);
      && v.log == [Sent([path + "/" + command, "=numbers=" + id])] + SentAll(RecoverSentences(path, Some(id)))
      && v.result == Ok(Recovery(respond, path, snakeCase, Some(id)))
      && v.placeAfter == Null
  {
    var b := Builder([], "", false, Null);
    TargetOfPlainId(respond, path, snakeCase, id);
    var t := TargetOf(respond, path, snakeCase, [], "", Str(id));
    CommandSentence(path, command, "=numbers=" + id);
    assert t.query + DataWords(None) == ["=numbers=" + id];
    assert !TargetFlag(b, Str(id)) && !DataFlag(None) && DataPlaceAfter(None, Null) == Null;
    var q := [path + "/" + command, "=numbers=" + id];
    ActedPlain(respond, path, snakeCase, id, q);
  }

  class Crud {
    const api: Api
    const pathVal: string
    const snakeCase: bool
    var queryVal: seq<string>
    var proplistVal: string
    var needsObjectTranslation: bool
    /** `null`/`undefined` are both `Null`. */
    var placeAfter: Value

    /** `placeAfter` only ever holds a string or a number taken from a parameter or a reply, or nothing. */
    predicate Valid()
      reads this
    {
      placeAfter.Str? || placeAfter.Num? || placeAfter.Null?
    }

    /** The fields a verb starts from. */
    function State(): Builder
      reads this
    {
      Builder(queryVal, proplistVal, needsObjectTranslation, placeAfter)
    }

    constructor (api: Api, path: string, snakeCase: bool)
      ensures this.api == api && this.snakeCase == snakeCase
      ensures pathVal == NormalizePath(path)
      ensures queryVal == [] && proplistVal == "" && !needsObjectTranslation && placeAfter == Null
      ensures Valid()
    {
      this.api := api;
      this.snakeCase := snakeCase;
      pathVal := NormalizePath(path);
      queryVal := [];
      proplistVal := "";
      needsObjectTranslation := false;
      placeAfter := Null;
    }

    /** `fullQuery(append)`: the sentence for the words gathered so far; the builder is not changed. */
    method FullQuery(append: string) returns (val: Sentence)
      ensures val == FullQueryOf(pathVal, append, proplistVal, queryVal)
    {
      val := [pathVal + append];
      if proplistVal != "" {
        val := val + [proplistVal];
      }
      val := val + queryVal;
      ghost var words := val;
      assert words == Assemble(pathVal, append, proplistVal, queryVal);
      if !IsPrint(val[0]) {
        var index := 0;
        while index < |val|
          invariant 0 <= index <= |val| == |words|
          invariant forall i :: 0 <= i < index ==> val[i] == QuestionToEquals(words[i])
          invariant forall i :: index <= i < |val| ==> val[i] == words[i]
        {
          val := val[index := QuestionToEquals(val[index])];
          index := index + 1;
        }
      }
    }

    /** `stringfySearchQuery(items)`: objects (and null) become JSON text, at the top or as array elements,
        and the translation flag is raised when one was met. */
    method StringifySearchQuery(items: Value) returns (r: Value)
      modifies this
      ensures r == Stringified(items)
      ensures needsObjectTranslation == (old(needsObjectTranslation) || NeedsTranslation(items))
      ensures queryVal == old(queryVal) && proplistVal == old(proplistVal) && placeAfter == old(placeAfter)
    {
      var list := if items.Arr? then items.items else [items];
      var newItems: seq<Value> := [];
      var k := 0;
      while k < |list|
        invariant 0 <= k <= |list| && |newItems| == k
        invariant newItems == StringifiedItems(list[..k])
        invariant needsObjectTranslation == (old(needsObjectTranslation) || exists i :: 0 <= i < k && IsObject(list[i]))
        invariant queryVal == old(queryVal) && proplistVal == old(proplistVal) && placeAfter == old(placeAfter)
      {
        assert list[..k + 1][..k] == list[..k];
        if IsObject(list[k]) {
          needsObjectTranslation := true;
          newItems := newItems + [Str(Encode(list[k]))];
        } else {
          newItems := newItems + [list[k]];
        }
        k := k + 1;
      }
      assert list[..k] == list;
      if items.Arr? {
        r := Arr(newItems);
      } else {
        r := newItems[0];
      }
    }

    /** The body of `makeQuery`'s loop for one parameter: its word, and the flag and `placeAfter` it sets. */
    method ParamWordOf(addQuestionMark: bool, key: string, tmpVal: Value) returns (word: string)
      modifies this
      ensures word == ParamWord(addQuestionMark, key, tmpVal)
      ensures needsObjectTranslation == (old(needsObjectTranslation) || (!tmpVal.Null? && NeedsTranslation(tmpVal)))
      ensures placeAfter == if SetsPlaceAfter(key, tmpVal) then tmpVal else old(placeAfter)
      ensures queryVal == old(queryVal) && proplistVal == old(proplistVal)
    {
      var tmpKey := KeyName(key);
      var text: string;
      if tmpVal.Bool? {
        text := if tmpVal.b then "yes" else "no";
      } else if tmpVal.Null? {
        text := "";
      } else if IsObject(tmpVal) {
        var s := StringifySearchQuery(tmpVal);
        text := JsText(s);
      } else if tmpKey == "placeAfter" {
        placeAfter := tmpVal;
        tmpKey := "placeBefore";
        text := JsText(tmpVal);
      } else {
        text := JsText(tmpVal);
      }
      word := ToDashedCase([Prefix(addQuestionMark)] + tmpKey) + "=" + text;
    }

    /** After the first `k` parameters: their words, on the builder's query when `addToLocalQuery` holds,
        and the flag and `placeAfter` grown from `flag0` and `pa0`. */
    ghost predicate Pushed(params: Params, k: nat, addQuestionMark: bool, addToLocalQuery: bool,
                           query0: Sentence, flag0: bool, pa0: Value, words: Sentence)
      reads this
    {
      && k <= |params|
      && words == ParamWords(params[..k], addQuestionMark)
      && queryVal == (if addToLocalQuery then query0 + words else query0)
      && needsObjectTranslation == (flag0 || AnyNeedsTranslation(params[..k]))
      && placeAfter == PlaceAfterOf(params[..k], pa0)
    }

    /** One pass of `makeQuery`'s loop, at parameter `k`: its word is added to the words so far, and pushed
        onto the builder's query when `addToLocalQuery` holds; the flag and `placeAfter` follow. */
    method PushParam(params: Params, addQuestionMark: bool, addToLocalQuery: bool, k: nat,
                     ghost query0: Sentence, ghost flag0: bool, ghost pa0: Value, words: Sentence)
      returns (words': Sentence)
      requires k < |params|
      requires Pushed(params, k, addQuestionMark, addToLocalQuery, query0, flag0, pa0, words)
      modifies this
      ensures Pushed(params, k + 1, addQuestionMark, addToLocalQuery, query0, flag0, pa0, words')
      ensures proplistVal == old(proplistVal)
      ensures old(Valid()) ==> Valid()
    {
      ParamsStep(params, k, pa0);
      ParamWordsStep(params, k, addQuestionMark);
      var word := ParamWordOf(addQuestionMark, params[k].0, params[k].1);
      AppendAssoc(query0, words, [word]);
      if addToLocalQuery {
        queryVal := queryVal + [word];
      }
      words' := words + [word];
    }

    /** `makeQuery(params, addQuestionMark, addToLocalQuery)`: one word per parameter, appended to the
        builder or returned on their own. */
    method MakeQuery(params: Params, addQuestionMark: bool, addToLocalQuery: bool) returns (tmpQuery: Sentence)
      modifies this
      ensures addToLocalQuery ==> queryVal == old(queryVal) + ParamWords(params, addQuestionMark) && tmpQuery == queryVal
      ensures !addToLocalQuery ==> queryVal == old(queryVal) && tmpQuery == ParamWords(params, addQuestionMark)
      ensures needsObjectTranslation == (old(needsObjectTranslation) || AnyNeedsTranslation(params))
      ensures placeAfter == PlaceAfterOf(params, old(placeAfter))
      ensures proplistVal == old(proplistVal)
      ensures old(Valid()) ==> Valid()
    {
      ghost var query0, flag0, pa0 := queryVal, needsObjectTranslation, placeAfter;
      var words: Sentence := [];
      var k := 0;
      while k < |params|
        invariant Pushed(params, k, addQuestionMark, addToLocalQuery, query0, flag0, pa0, words)
        invariant proplistVal == old(proplistVal)
        invariant old(Valid()) ==> Valid()
      {
        words := PushParam(params, addQuestionMark, addToLocalQuery, k, query0, flag0, pa0, words);
        k := k + 1;
      }
      assert params[..k] == params;
      tmpQuery := if addToLocalQuery then queryVal else words;
    }

    /** `treatMikrotikProperties` for one raw item. */
    method TreatResult(raw: RawItem) returns (tmpItem: Item)
      ensures tmpItem == TreatItem(pathVal, raw, snakeCase)
    {
      tmpItem := map["$$path" := Text(pathVal)];
      var k := 0;
      while k < |raw|
        invariant 0 <= k <= |raw|
        invariant tmpItem == TreatItem(pathVal, raw[..k], snakeCase)
      {
        TreatItemStep(pathVal, raw, snakeCase, k);
        tmpItem := tmpItem[ReplyKey(raw[k].0, snakeCase) := Cast(raw[k].1)];
        k := k + 1;
      }
      assert raw[..k] == raw;
    }

    /** `treatMikrotikProperties(results)`: one normalised item per raw item, in order. */
    method TreatProperties(results: seq<RawItem>) returns (treated: seq<Item>)
      ensures treated == TreatAll(pathVal, results, snakeCase)
    {
      treated := [];
      var k := 0;
      while k < |results|
        invariant 0 <= k <= |results| && |treated| == k
        invariant treated == TreatAll(pathVal, results[..k], snakeCase)
      {
        TreatAllStep(pathVal, results, snakeCase, k);
        var item := TreatResult(results[k]);
        treated := treated + [item];
        k := k + 1;
      }
      assert results[..k] == results;
    }

    /** The synchronous half of `translateQueryIntoId(queries)`: when the flag is raised, every reference
        word is decoded and its lookup sent, in word order; a reference that does not decode stops the scan. */
    method BeginTranslate(queries: Sentence) returns (r: Result<Pending, Error>)
      requires Valid()
      modifies this, api
      ensures Valid()
      ensures queryVal == old(queryVal) && proplistVal == old(proplistVal)
      ensures needsObjectTranslation == old(needsObjectTranslation)
      ensures var b := Begun(api.respond, pathVal, queries, old(needsObjectTranslation), old(placeAfter));
        r == b.result && api.log == old(api.log) + b.log && placeAfter == b.placeAfter
    {
      if |queries| == 0 || !needsObjectTranslation {
        return Ok(Pending(queries, [], [], false));
      }
      var consults, replies, failed := LookupReferences(queries);
      if failed.Some? {
        return Err(BadReference(failed.value));
      }
      ScanRefsBelow(queries, |queries|);
      r := Ok(Pending(queries, consults, replies, true));
    }

    /** The loop of `translateQueryIntoId`: each reference word, in order, is decoded and looked up. */
    method LookupReferences(queries: Sentence) returns (consults: seq<Consult>, replies: seq<seq<RawItem>>, failed: Option<string>)
      requires Valid()
      modifies this, api
      ensures Scan(consults, failed) == ScanRefs(queries, |queries|)
      ensures replies == LookupReplies(api.respond, pathVal, consults)
      ensures api.log == old(api.log) + LookupLog(pathVal, consults)
      ensures placeAfter == PlaceAfterOfConsults(consults, old(placeAfter))
      ensures Valid()
      ensures queryVal == old(queryVal) && proplistVal == old(proplistVal)
      ensures needsObjectTranslation == old(needsObjectTranslation)
    {
      consults, replies, failed := [], [], None;
      var index := 0;
      while index < |queries|
        invariant index <= |queries| && failed.None?
        invariant Looked(queries, index, consults, replies, None, old(placeAfter), old(api.log))
        invariant queryVal == old(queryVal) && proplistVal == old(proplistVal)
        invariant needsObjectTranslation == old(needsObjectTranslation)
      {
        consults, replies, failed := LookupNext(queries, index, consults, replies, old(placeAfter), old(api.log));
        if failed.Some? {
          return;
        }
        index := index + 1;
      }
    }

    /** After the first `index` words of `queries`: the scan so far, the replies to its lookups, the lookups
        sent behind `log0`, and `placeAfter` grown from `pa0`. */
    ghost predicate Looked(queries: Sentence, index: nat, consults: seq<Consult>, replies: seq<seq<RawItem>>,
                           failed: Option<string>, pa0: Value, log0: seq<Request>)
      reads this, api
    {
      && index <= |queries|
      && ScanRefs(queries, index) == Scan(consults, failed)
      && replies == LookupReplies(api.respond, pathVal, consults)
      && api.log == log0 + LookupLog(pathVal, consults)
      && placeAfter == PlaceAfterOfConsults(consults, pa0)
      && Valid()
    }

    /** One pass of `translateQueryIntoId`'s loop, at word `index`: the scan, the lookups, their replies and
        `placeAfter` grow from those of the first `index` words to those of the first `index + 1`. */
    method LookupNext(queries: Sentence, index: nat, consults: seq<Consult>, replies: seq<seq<RawItem>>,
                      ghost pa0: Value, ghost log0: seq<Request>)
      returns (consults': seq<Consult>, replies': seq<seq<RawItem>>, failed: Option<string>)
      requires index < |queries|
      requires Looked(queries, index, consults, replies, None, pa0, log0)
      modifies this, api
      ensures Looked(queries, index + 1, consults', replies', failed, pa0, log0)
      ensures failed.Some? ==> Scan(consults', failed) == ScanRefs(queries, |queries|)
      ensures queryVal == old(queryVal) && proplistVal == old(proplistVal)
      ensures needsObjectTranslation == old(needsObjectTranslation)
    {
      var consult, reply;
      ghost var next;
      consult, reply, failed, next := LookupWord(consults, index, queries[index]);
      ScanRefsNext(queries, index);
      consults', replies' := consults, replies;
      if consult.Some? {
        ConsultsStep(api.respond, pathVal, consults, consult.value, pa0);
        AppendAssoc(log0, LookupLog(pathVal, consults), [Sent(LookupSentence(pathVal, consult.value.fields))]);
        consults' := consults + [consult.value];
        replies' := replies + [reply];
      }
      if failed.Some? {
        ScanRefsStops(queries, index + 1, |queries|);
      }
    }

    /** One word of `translateQueryIntoId`'s loop: a reference word (one that mentions `.id=`, `place-before=`,
        `place-after=` or `numbers=` and holds `{…}`) is split at `=` into its key and its JSON text, and the
        decoded object is looked up. */
    method LookupWord(ghost consults: seq<Consult>, index: nat, element: string)
      returns (consult: Option<Consult>, reply: seq<RawItem>, failed: Option<string>, ghost next: Scan)
      requires Valid()
      modifies this, api
      ensures failed.Some? ==> consult.None?
      ensures next == ScanWord(Scan(consults, None), index, element)
      ensures next == if failed.Some? then Scan(consults, failed)
                      else if consult.Some? then Scan(consults + [consult.value], None)
                      else Scan(consults, None)
      ensures consult.Some? ==>
        && reply == api.respond(LookupSentence(pathVal, consult.value.fields))
        && api.log == old(api.log) + [Sent(LookupSentence(pathVal, consult.value.fields))]
        && placeAfter == PlaceAfterOf(consult.value.fields, old(placeAfter))
      ensures consult.None? ==> api.log == old(api.log) && placeAfter == old(placeAfter)
      ensures Valid()
      ensures queryVal == old(queryVal) && proplistVal == old(proplistVal)
      ensures needsObjectTranslation == old(needsObjectTranslation)
    {
      consult, reply, failed := None, [], None;
      next := ScanWord(Scan(consults, None), index, element);
      var str := Unprefixed(element);
      if MentionsRef(str) && Braced(str) {
        var key := BeforeFirst(str, '=');
        var value := ParseObject(AfterLast(str, '='));
        if value.None? {
          failed := Some(AfterLast(str, '='));
          return;
        }
        ParseObjectFlat(AfterLast(str, '='));
        consult := Some(Consult(index, key, value.value));
        reply := Lookup(value.value);
      }
    }

    /** One reference lookup: the object's fields as `?` words after `print` of the `.id` alone. */
    method Lookup(fields: Params) returns (reply: seq<RawItem>)
      requires Flat(fields)
      modifies this, api
      ensures reply == api.respond(LookupSentence(pathVal, fields))
      ensures api.log == old(api.log) + [Sent(LookupSentence(pathVal, fields))]
      ensures placeAfter == PlaceAfterOf(fields, old(placeAfter))
      ensures queryVal == old(queryVal) && proplistVal == old(proplistVal)
      ensures needsObjectTranslation == old(needsObjectTranslation)
      ensures old(Valid()) ==> Valid()
    {
      ScalarsNeedNoTranslation(fields);
      var words := MakeQuery(fields, true, false);
      reply := api.Write([pathVal + "/print", "=.proplist=.id"] + words);
    }

    /** The asynchronous half of `translateQueryIntoId`: the first item of each lookup's reply replaces the
        reference word by `=key=<its .id>`; an empty reply rejects with the reference's key. */
    method FinishTranslate(p: Pending) returns (r: Result<Sentence, Error>)
      requires WellFormed(p)
      modifies this
      ensures Resolve(p.query, p.consults, p.replies, old(placeAfter)).Resolved? ==>
        r == Ok(Resolve(p.query, p.consults, p.replies, old(placeAfter)).query) && !needsObjectTranslation
      ensures Resolve(p.query, p.consults, p.replies, old(placeAfter)).Unresolved? ==>
        r == Err(RefNotFound(Resolve(p.query, p.consults, p.replies, old(placeAfter)).key))
        && needsObjectTranslation == old(needsObjectTranslation)
      ensures placeAfter == Resolve(p.query, p.consults, p.replies, old(placeAfter)).placeAfter
      ensures queryVal == old(queryVal) && proplistVal == old(proplistVal)
      ensures old(Valid()) ==> Valid()
    {
      var queries := p.query;
      var k := 0;
      while k < |p.consults|
        invariant 0 <= k <= |p.consults| && |queries| == |p.query|
        invariant Resolve(p.query, p.consults, p.replies, old(placeAfter))
               == Resolve(queries, p.consults[k..], p.replies[k..], placeAfter)
        invariant queryVal == old(queryVal) && proplistVal == old(proplistVal)
        invariant needsObjectTranslation == old(needsObjectTranslation)
        invariant old(Valid()) ==> Valid()
      {
        var result := p.replies[k];
        var consulted := p.consults[k];
        assert p.consults[k..][0] == consulted && p.replies[k..][0] == result;
        assert p.consults[k..][1..] == p.consults[k + 1..] && p.replies[k..][1..] == p.replies[k + 1..];
        if |result| == 0 {
          return Err(RefNotFound(consulted.key));
        }
        var id := RawGet(result[0], ".id");
        var key := consulted.key;
        if key == "place-after" {
          placeAfter := if id.Some? then Str(id.value) else Null;
          key := "place-before";
        }
        queries := queries[consulted.index := ResolvedWord(key, id)];
        k := k + 1;
      }
      needsObjectTranslation := false;
      r := Ok(queries);
    }

    /** `write(query)`: the builder is emptied, then the sentence is sent and its reply normalised. */
    method Write(query: Sentence) returns (items: seq<Item>)
      modifies this, api
      ensures queryVal == [] && proplistVal == ""
      ensures api.log == old(api.log) + [Sent(query)]
      ensures items == TreatAll(pathVal, api.respond(query), snakeCase)
      ensures needsObjectTranslation == old(needsObjectTranslation) && placeAfter == old(placeAfter)
    {
      queryVal := [];
      proplistVal := "";
      var results := api.Write(query);
      items := TreatProperties(results);
    }

    /** `recoverDataFromChangedItems(ids)`: the changed items read back by their ids, straight through the
        raw API (the builder is not touched). */
    method RecoverData(ids: Option<string>) returns (r: Recovered)
      modifies api
      ensures api.log == old(api.log) + SentAll(RecoverSentences(pathVal, ids))
      ensures r == Recovery(api.respond, pathVal, snakeCase, ids)
    {
      if ids.None? || ids.value == "" {
        var data := api.Write([pathVal + "/print"]);
        var treated := TreatProperties(data);
        return One(First(treated));
      }
      var splittedIds := Split(ids.value, ',');
      var replies: seq<seq<RawItem>> := [];
      var k := 0;
      while k < |splittedIds|
        invariant 0 <= k <= |splittedIds|
        invariant replies == Replies(api.respond, PrintIds(pathVal, splittedIds[..k]))
        invariant api.log == old(api.log) + SentAll(PrintIds(pathVal, splittedIds[..k]))
      {
        replies := ReadBackNext(splittedIds, k, replies, old(api.log));
        k := k + 1;
      }
      assert splittedIds[..k] == splittedIds;
      var treated := TreatProperties(Flatten(replies));
      r := if ',' in ids.value then Many(treated) else One(First(treated));
    }

    /** One pass of `recoverDataFromChangedItems`'s loop, at id `k`: that item is printed by its id. */
    method ReadBackNext(splittedIds: seq<string>, k: nat, replies: seq<seq<RawItem>>, ghost log0: seq<Request>)
      returns (replies': seq<seq<RawItem>>)
      requires k < |splittedIds|
      requires replies == Replies(api.respond, PrintIds(pathVal, splittedIds[..k]))
      requires api.log == log0 + SentAll(PrintIds(pathVal, splittedIds[..k]))
      modifies api
      ensures replies' == Replies(api.respond, PrintIds(pathVal, splittedIds[..k + 1]))
      ensures api.log == log0 + SentAll(PrintIds(pathVal, splittedIds[..k + 1]))
    {
      ghost var done := PrintIds(pathVal, splittedIds[..k]);
      PrintIdsStep(pathVal, splittedIds, k);
      SentAppend(api.respond, done, PrintId(pathVal, splittedIds[k]));
      AppendAssoc(log0, SentAll(done), [Sent(PrintId(pathVal, splittedIds[k]))]);
      var reply := api.Write([pathVal + "/print", "?.id=" + splittedIds[k]]);
      replies' := replies + [reply];
    }

    /** `queryForIdsIfNeeded(ids)`. */
    method QueryForIdsIfNeeded(ids: Option<string>) returns (found: string)
      modifies this, api
      ensures var t := IdsQueried(api.respond, pathVal, snakeCase, old(queryVal), old(proplistVal), ids);
        found == t.ids && queryVal == t.query && proplistVal == t.proplist && api.log == old(api.log) + t.log
      ensures needsObjectTranslation == old(needsObjectTranslation) && placeAfter == old(placeAfter)
    {
      if ids.Some? && ids.value != "" {
        return ids.value;
      }
      queryVal := queryVal + ["=.proplist=.id"];
      var query := FullQuery("/print");
      var data := Write(query);
      found := IdsText(data);
      if found != "" {
        queryVal := queryVal + ["=numbers=" + found];
      }
    }

    /** The prologue of `disable`, `enable`, `update`, `unset` and `remove`: a truthy `ids` is pushed as
        `=numbers=`, then the targeted ids are taken from the words or queried. */
    method Target(ids: Value) returns (found: string)
      requires Valid()
      modifies this, api
      ensures Valid()
      ensures var t := TargetOf(api.respond, pathVal, snakeCase, old(queryVal), old(proplistVal), ids);
        found == t.ids && queryVal == t.query && proplistVal == t.proplist && api.log == old(api.log) + t.log
      ensures needsObjectTranslation == (old(needsObjectTranslation) || (Truthy(ids) && NeedsTranslation(ids)))
      ensures placeAfter == old(placeAfter)
    {
      if Truthy(ids) {
        var text := StringifySearchQuery(ids);
        queryVal := queryVal + ["=numbers=" + JsText(text)];
      }
      var given := LookForIdParameter(queryVal);
      found := QueryForIdsIfNeeded(given);
    }

    /** The synchronous half of `exec(command, data)`: the data's words are added, the sentence assembled and
        the lookups of its references sent. */
    method BeginExec(command: string, data: Option<Params>) returns (r: Result<Pending, Error>)
      requires Valid()
      modifies this, api
      ensures Valid()
      ensures queryVal == old(queryVal) + DataWords(data) && proplistVal == old(proplistVal)
      ensures needsObjectTranslation == (old(needsObjectTranslation) || DataFlag(data))
      ensures r.Ok? ==> r.value.translate == needsObjectTranslation
      ensures var b := Begun(api.respond, pathVal,
                             FullQueryOf(pathVal, "/" + command, old(proplistVal), old(queryVal) + DataWords(data)),
                             needsObjectTranslation, DataPlaceAfter(data, old(placeAfter)));
        r == b.result && api.log == old(api.log) + b.log && placeAfter == b.placeAfter
    {
      if data.Some? {
        var _ := MakeQuery(data.value, false, true);
      }
      assert queryVal == old(queryVal) + DataWords(data) && proplistVal == old(proplistVal);
      assert needsObjectTranslation == (old(needsObjectTranslation) || DataFlag(data));
      assert placeAfter == DataPlaceAfter(data, old(placeAfter));
      r := BeginCommand(command);
    }

    /** The sentence of `command` assembled from the builder as it stands, then its lookups sent. */
    method BeginCommand(command: string) returns (r: Result<Pending, Error>)
      requires Valid()
      modifies this, api
      ensures Valid()
      ensures queryVal == old(queryVal) && proplistVal == old(proplistVal)
      ensures needsObjectTranslation == old(needsObjectTranslation)
      ensures r.Ok? ==> r.value.translate == needsObjectTranslation
      ensures var b := Begun(api.respond, pathVal, FullQueryOf(pathVal, "/" + command, old(proplistVal), old(queryVal)),
                             needsObjectTranslation, old(placeAfter));
        r == b.result && api.log == old(api.log) + b.log && placeAfter == b.placeAfter
    {
      var query := FullQuery("/" + command);
      FullQueryShape(pathVal, "/" + command, proplistVal, queryVal);
      r := BeginTranslate(query);
    }

    /** The asynchronous half of `exec`: references resolved, the sentence written, a pending `placeAfter` served. */
    method FinishExec(p: Pending) returns (r: Result<seq<Item>, Error>)
      requires Valid() && WellFormed(p)
      requires !p.translate ==> !needsObjectTranslation
      modifies this, api
      decreases if !p.translate && placeAfter == Null then 0 else 1, 2
      ensures Valid()
      ensures var f := Finished(api.respond, pathVal, snakeCase, p, old(placeAfter));
        r == f.result && api.log == old(api.log) + f.log && placeAfter == f.placeAfter
      ensures r.Ok? ==> queryVal == [] && proplistVal == "" && !needsObjectTranslation
      ensures r.Err? ==> queryVal == old(queryVal) && proplistVal == old(proplistVal) && needsObjectTranslation == old(needsObjectTranslation)
    {
      var consulted := FinishTranslate(p);
      if consulted.Err? {
        return Err(consulted.error);
      }
      ghost var log0 := api.log;
      ghost var pa := placeAfter;
      var results := Write(consulted.value);
      results := PrepareToPlaceAfter(results);
      AppendAssoc(log0, [Sent(consulted.value)], PlaceLog(pathVal, pa, results));
      r := Ok(results);
    }

    /** `prepareToPlaceAfter(results)`: with `placeAfter` set and one reply item carrying a truthy `ret`, the
        entry named by `placeAfter` is moved above `ret`; the results pass through. */
    method PrepareToPlaceAfter(results: seq<Item>) returns (r: seq<Item>)
      requires Valid() && !needsObjectTranslation && queryVal == [] && proplistVal == ""
      modifies this, api
      decreases if placeAfter == Null then 0 else 1, 1
      ensures Valid() && !needsObjectTranslation && queryVal == [] && proplistVal == ""
      ensures r == results
      ensures api.log == old(api.log) + PlaceLog(pathVal, old(placeAfter), results)
      ensures placeAfter == PlacedAfter(old(placeAfter), results)
    {
      r := results;
      if !Truthy(placeAfter) || |results| != 1 {
        return;
      }
      if "ret" !in results[0] || !FieldTruthy(results[0]["ret"]) {
        return;
      }
      var from := placeAfter;
      var to := FieldValue(results[0]["ret"]);
      placeAfter := Null;
      var _ := MoveEntry(from, to);
    }

    /** The words of `moveEntry`: `from` as `=numbers=`, and a truthy `to` as `=destination=`. */
    method PushMoveWords(from: Value, to: Value)
      requires Valid() && !needsObjectTranslation
      requires from.Str? || from.Num?
      requires to.Str? || to.Num? || to.Bool? || to.Null?
      modifies this
      ensures Valid() && !needsObjectTranslation
      ensures queryVal == old(queryVal) + MoveWords(from, to)
      ensures proplistVal == old(proplistVal) && placeAfter == old(placeAfter)
    {
      assert !NeedsTranslation(AsArray(from)) by {
        assert AsArray(from) == Arr([from]);
      }
      var fromText := StringifySearchQuery(AsArray(from));
      queryVal := queryVal + ["=numbers=" + JsText(fromText)];
      if Truthy(to) {
        var toText := StringifySearchQuery(to);
        queryVal := queryVal + ["=destination=" + JsText(toText)];
      }
    }

    /** `moveEntry(from, to)`: the `move` command for `from` above `to`, then the moved entries read back. */
    method MoveEntry(from: Value, to: Value) returns (r: Recovered)
      requires Valid() && !needsObjectTranslation && placeAfter == Null
      requires from.Str? || from.Num?
      requires to.Str? || to.Num? || to.Bool? || to.Null?
      modifies this, api
      decreases 0, 4
      ensures Valid() && !needsObjectTranslation && placeAfter == Null
      ensures queryVal == [] && proplistVal == ""
      ensures api.log == old(api.log) + MoveLog(pathVal, old(queryVal), old(proplistVal), from, to)
      ensures r == Recovery(api.respond, pathVal, snakeCase, LastIdValue(old(queryVal) + MoveWords(from, to)))
    {
      PushMoveWords(from, to);
      var movedIds := LookForIdParameter(queryVal);
      ghost var query := FullQueryOf(pathVal, "/" + "move", proplistVal, queryVal);
      assert MoveLog(pathVal, old(queryVal), old(proplistVal), from, to)
          == [Sent(query)] + SentAll(RecoverSentences(pathVal, movedIds));
      ghost var log0 := api.log;
      var _ := Exec("move", None);
      r := RecoverData(movedIds);
      AppendAssoc(log0, [Sent(query)], SentAll(RecoverSentences(pathVal, movedIds)));
    }

    /** `exec(command, data)`: the data's words, the sentence, its references, the write and the placement. */
    method Exec(command: string, data: Option<Params>) returns (r: Result<seq<Item>, Error>)
      requires Valid()
      modifies this, api
      decreases if data.None? && !needsObjectTranslation && placeAfter == Null then 0 else 1, 3
      ensures Valid()
      ensures var e := Executed(api.respond, pathVal, snakeCase,
                                FullQueryOf(pathVal, "/" + command, old(proplistVal), old(queryVal) + DataWords(data)),
                                old(needsObjectTranslation) || DataFlag(data), DataPlaceAfter(data, old(placeAfter)));
        r == e.result && api.log == old(api.log) + e.log && placeAfter == e.placeAfter
      ensures data.None? && !old(needsObjectTranslation) && old(placeAfter) == Null ==>
        var q := FullQueryOf(pathVal, "/" + command, old(proplistVal), old(queryVal));
        r == Ok(TreatAll(pathVal, api.respond(q), snakeCase)) && api.log == old(api.log) + [Sent(q)] && placeAfter == Null
      ensures r.Ok? ==> queryVal == [] && proplistVal == "" && !needsObjectTranslation
      ensures r.Err? ==> queryVal == old(queryVal) + DataWords(data) && proplistVal == old(proplistVal) && needsObjectTranslation
    {
      if data.None? && !needsObjectTranslation && placeAfter == Null {
        assert queryVal + DataWords(data) == queryVal;
        ExecutedPlain(api.respond, pathVal, snakeCase, FullQueryOf(pathVal, "/" + command, proplistVal, queryVal));
      }
      ghost var query := FullQueryOf(pathVal, "/" + command, proplistVal, queryVal + DataWords(data));
      ghost var translate := needsObjectTranslation || DataFlag(data);
      ghost var pa := DataPlaceAfter(data, placeAfter);
      ghost var log0 := api.log;
      var begun := BeginExec(command, data);
      ghost var b := Begun(api.respond, pathVal, query, translate, pa);
      assert begun == b.result && api.log == log0 + b.log && placeAfter == b.placeAfter;
      if begun.Err? {
        return Err(begun.error);
      }
      ghost var log1 := api.log;
      r := FinishExec(begun.value);
      ghost var f := Finished(api.respond, pathVal, snakeCase, b.result.value, b.placeAfter);
      AppendAssoc(log0, b.log, f.log);
    }

    /** A command on the builder as it stands, then `recoverDataFromChangedItems` of `found` when it succeeded. */
    method ExecRecover(command: string, found: string) returns (r: Result<Recovered, Error>)
      requires Valid()
      modifies this, api
      ensures Valid()
      ensures var a := Acted(api.respond, pathVal, snakeCase, found,
                             Executed(api.respond, pathVal, snakeCase, FullQueryOf(pathVal, "/" + command, old(proplistVal), old(queryVal)),
                                      old(needsObjectTranslation), old(placeAfter)));
        r == a.result && api.log == old(api.log) + a.log && placeAfter == a.placeAfter
      ensures LeftBehind(r.Ok?, State(), old(queryVal), old(proplistVal))
    {
      ghost var log0 := api.log;
      assert queryVal + DataWords(None) == queryVal;
      var res := Exec(command, None);
      ghost var e := Executed(api.respond, pathVal, snakeCase, FullQueryOf(pathVal, "/" + command, old(proplistVal), old(queryVal)),
                              old(needsObjectTranslation), old(placeAfter));
      assert res == e.result && api.log == log0 + e.log && placeAfter == e.placeAfter;
      if res.Err? {
        return Err(res.error);
      }
      var rec := RecoverData(Some(found));
      AppendAssoc(log0, e.log, SentAll(RecoverSentences(pathVal, Some(found))));
      r := Ok(rec);
    }

    /** What `disable`, `enable`, `update` and `moveAbove` do once their targets are known: the data's words
        (`update` only), the command, then `recoverDataFromChangedItems` of the targets. */
    method ActOnFound(command: string, found: string, data: Option<Params>) returns (r: Result<Recovered, Error>)
      requires Valid()
      modifies this, api
      ensures Valid()
      ensures var a := Acted(api.respond, pathVal, snakeCase, found,
                             Executed(api.respond, pathVal, snakeCase, FullQueryOf(pathVal, "/" + command, old(proplistVal), old(queryVal) + DataWords(data)),
                                      old(needsObjectTranslation) || DataFlag(data), DataPlaceAfter(data, old(placeAfter))));
        r == a.result && api.log == old(api.log) + a.log && placeAfter == a.placeAfter
      ensures LeftBehind(r.Ok?, State(), old(queryVal) + DataWords(data), old(proplistVal))
    {
      if data.Some? {
        var _ := MakeQuery(data.value, false, true);
      }
      assert queryVal == old(queryVal) + DataWords(data) && proplistVal == old(proplistVal);
      assert needsObjectTranslation == (old(needsObjectTranslation) || DataFlag(data)) && placeAfter == DataPlaceAfter(data, old(placeAfter));
      r := ExecRecover(command, found);
    }

    /** The verbs `disable`, `enable` and `update` share this: the targets, then the rest as `ActOnFound`. */
    method ActOn(command: string, ids: Value, data: Option<Params>) returns (r: Result<Recovered, Error>)
      requires Valid()
      modifies this, api
      ensures Valid()
      ensures var v := ActedOn(api.respond, pathVal, snakeCase, old(State()), ids, command, data);
        r == v.result && api.log == old(api.log) + v.log && placeAfter == v.placeAfter
      ensures var t := TargetOf(api.respond, pathVal, snakeCase, old(queryVal), old(proplistVal), ids);
        LeftBehind(r.Ok?, State(), t.query + DataWords(data), t.proplist)
    {
      ghost var log0, b := api.log, State();
      var found := Target(ids);
      ghost var t := TargetOf(api.respond, pathVal, snakeCase, b.query, b.proplist, ids);
      assert needsObjectTranslation == TargetFlag(b, ids);
      ghost var a := Acted(api.respond, pathVal, snakeCase, found,
                           Executed(api.respond, pathVal, snakeCase, FullQueryOf(pathVal, "/" + command, t.proplist, t.query + DataWords(data)),
                                    TargetFlag(b, ids) || DataFlag(data), DataPlaceAfter(data, b.placeAfter)));
      r := ActOnFound(command, found, data);
      assert r == a.result && api.log == log0 + t.log + a.log && placeAfter == a.placeAfter;
      assert LeftBehind(r.Ok?, State(), t.query + DataWords(data), t.proplist);
      AppendAssoc(log0, t.log, a.log);
      assert ActedOn(api.respond, pathVal, snakeCase, b, ids, command, data) == Run(a.result, t.log + a.log, a.placeAfter);
    }

    /** `disable(ids)`. */
    method Disable(ids: Value) returns (r: Result<Recovered, Error>)
      requires Valid()
      modifies this, api
      ensures Valid()
      ensures var v := ActedOn(api.respond, pathVal, snakeCase, old(State()), ids, "disable", None);
        r == v.result && api.log == old(api.log) + v.log && placeAfter == v.placeAfter
      ensures var t := TargetOf(api.respond, pathVal, snakeCase, old(queryVal), old(proplistVal), ids);
        LeftBehind(r.Ok?, State(), t.query + DataWords(None), t.proplist)
    {
      r := ActOn("disable", ids, None);
    }

    /** `enable(ids)`. */
    method Enable(ids: Value) returns (r: Result<Recovered, Error>)
      requires Valid()
      modifies this, api
      ensures Valid()
      ensures var v := ActedOn(api.respond, pathVal, snakeCase, old(State()), ids, "enable", None);
        r == v.result && api.log == old(api.log) + v.log && placeAfter == v.placeAfter
      ensures var t := TargetOf(api.respond, pathVal, snakeCase, old(queryVal), old(proplistVal), ids);
        LeftBehind(r.Ok?, State(), t.query + DataWords(None), t.proplist)
    {
      r := ActOn("enable", ids, None);
    }

    /** `update(data, ids)` (and its aliases `set` and `edit`). */
    method Update(data: Params, ids: Value) returns (r: Result<Recovered, Error>)
      requires Valid()
      modifies this, api
      ensures Valid()
      ensures var v := ActedOn(api.respond, pathVal, snakeCase, old(State()), ids, "set", Some(data));
        r == v.result && api.log == old(api.log) + v.log && placeAfter == v.placeAfter
      ensures var t := TargetOf(api.respond, pathVal, snakeCase, old(queryVal), old(proplistVal), ids);
        LeftBehind(r.Ok?, State(), t.query + DataWords(Some(data)), t.proplist)
    {
      r := ActOn("set", ids, Some(data));
    }

    /** `remove(ids)` (and its alias `delete`). */
    method Remove(ids: Value) returns (r: Result<Recovered, Error>)
      requires Valid()
      modifies this, api
      ensures Valid()
      ensures var v := Removed(api.respond, pathVal, snakeCase, old(State()), ids);
        r == v.result && api.log == old(api.log) + v.log && placeAfter == v.placeAfter
      ensures var t := TargetOf(api.respond, pathVal, snakeCase, old(queryVal), old(proplistVal), ids);
        LeftBehind(r.Ok?, State(), t.query, t.proplist)
    {
      ghost var log0 := api.log;
      var found := Target(ids);
      ghost var t := TargetOf(api.respond, pathVal, snakeCase, old(queryVal), old(proplistVal), ids);
      assert needsObjectTranslation == TargetFlag(old(State()), ids);
      ghost var log1 := api.log;
      r := RemoveFound(found);
      ghost var u := RemovedFound(api.respond, pathVal, snakeCase, t.proplist, t.query, TargetFlag(old(State()), ids), old(placeAfter), t.ids);
      assert api.log == log1 + u.log;
      AppendAssoc(log0, t.log, u.log);
    }

    /** What `remove` does once its targets are known. */
    method RemoveFound(found: string) returns (r: Result<Recovered, Error>)
      requires Valid()
      modifies this, api
      ensures Valid()
      ensures var u := RemovedFound(api.respond, pathVal, snakeCase, old(proplistVal), old(queryVal), old(needsObjectTranslation), old(placeAfter), found);
        r == u.result && api.log == old(api.log) + u.log && placeAfter == u.placeAfter
      ensures LeftBehind(r.Ok?, State(), old(queryVal), old(proplistVal))
    {
      ghost var log0 := api.log;
      ghost var read := SentAll(RecoverSentences(pathVal, Some(found)));
      var responseData := RecoverData(Some(found));
      ghost var log2 := api.log;
      assert queryVal + DataWords(None) == queryVal;
      var res := Exec("remove", None);
      ghost var e := Executed(api.respond, pathVal, snakeCase, FullQueryOf(pathVal, "/" + "remove", old(proplistVal), old(queryVal)),
                              old(needsObjectTranslation), old(placeAfter));
      assert api.log == log2 + e.log;
      AppendAssoc(log0, read, e.log);
      r := if res.Err? then Err(res.error) else Ok(responseData);
    }

    /** What `moveAbove` does once the moved entries are known. */
    method MoveFound(found: string, to: Value) returns (r: Result<Recovered, Error>)
      requires Valid()
      modifies this, api
      ensures Valid()
      ensures var a := MovedTo(api.respond, pathVal, snakeCase, old(proplistVal), old(queryVal), old(needsObjectTranslation), old(placeAfter), to, found);
        r == a.result && api.log == old(api.log) + a.log && placeAfter == a.placeAfter
      ensures LeftBehind(r.Ok?, State(), DestinationWords(old(queryVal), to), old(proplistVal))
    {
      if Truthy(to) {
        queryVal := queryVal + ["=destination=" + JsText(to)];
      }
      assert queryVal + DataWords(None) == queryVal;
      r := ActOnFound("move", found, None);
    }

    /** `moveAbove(to)`: the entries named by the last id word are moved before `to` and read back. */
    method MoveAbove(to: Value) returns (r: Result<Recovered, Error>)
      requires Valid()
      modifies this, api
      ensures Valid()
      ensures var v := MovedAbove(api.respond, pathVal, snakeCase, old(State()), to);
        r == v.result && api.log == old(api.log) + v.log && placeAfter == v.placeAfter
      ensures var t := IdsQueried(api.respond, pathVal, snakeCase, old(queryVal), old(proplistVal), LastIdValue(old(queryVal)));
        LeftBehind(r.Ok?, State(), DestinationWords(t.query, to), t.proplist)
    {
      ghost var log0 := api.log;
      var movedIds := LookForIdParameter(queryVal);
      var found := QueryForIdsIfNeeded(movedIds);
      ghost var t := IdsQueried(api.respond, pathVal, snakeCase, old(queryVal), old(proplistVal), LastIdValue(old(queryVal)));
      ghost var log1 := api.log;
      r := MoveFound(found, to);
      ghost var a := MovedTo(api.respond, pathVal, snakeCase, t.proplist, t.query, old(needsObjectTranslation), old(placeAfter), to, t.ids);
      assert api.log == log1 + a.log;
      AppendAssoc(log0, t.log, a.log);
    }

    /** `add(data)` (and its alias `create`). */
    method Add(data: Params) returns (r: Result<Recovered, Error>)
      requires Valid()
      modifies this, api
      ensures Valid()
      ensures var v := Added(api.respond, pathVal, snakeCase, old(State()), data);
        r == v.result && api.log == old(api.log) + v.log && placeAfter == v.placeAfter
      ensures LeftBehind(r.Ok? || r == Err(NotText), State(), old(queryVal) + DataWords(Some(data)), old(proplistVal))
    {
      ghost var log0, b := api.log, State();
      ghost var e := Executed(api.respond, pathVal, snakeCase, FullQueryOf(pathVal, "/" + "add", b.proplist, b.query + DataWords(Some(data))),
                              b.translate || DataFlag(Some(data)), DataPlaceAfter(Some(data), b.placeAfter));
      var results := AddCommand(data);
      if results.Err? {
        AddedOf(api.respond, pathVal, snakeCase, b, data, e, Run(Ok(One(None)), [], Null));
        assert LeftBehind(false, State(), b.query + DataWords(Some(data)), b.proplist);
        return Err(results.error);
      }
      ghost var log1 := api.log;
      r := RecoverAdded(results.value);
      ghost var a := AddedFrom(api.respond, pathVal, snakeCase, results.value, e.placeAfter);
      assert api.log == log1 + a.log;
      AppendAssoc(log0, e.log, a.log);
      AddedOf(api.respond, pathVal, snakeCase, b, data, e, a);
      assert LeftBehind(true, State(), b.query + DataWords(Some(data)), b.proplist);
    }

    /** The command half of `add`: `exec("add", data)`, stated by its run alone. */
    method AddCommand(data: Params) returns (results: Result<seq<Item>, Error>)
      requires Valid()
      modifies this, api
      ensures Valid()
      ensures var e := Executed(api.respond, pathVal, snakeCase,
                                FullQueryOf(pathVal, "/" + "add", old(proplistVal), old(queryVal) + DataWords(Some(data))),
                                old(needsObjectTranslation) || DataFlag(Some(data)), DataPlaceAfter(Some(data), old(placeAfter)));
        results == e.result && api.log == old(api.log) + e.log && placeAfter == e.placeAfter
      ensures LeftBehind(results.Ok?, State(), old(queryVal) + DataWords(Some(data)), old(proplistVal))
      ensures results.Err? ==> !results.error.NotText?
    {
      results := Exec("add", Some(data));
    }

    /** The `then` of `add`: the ids of the first reply item are read back; no reply item gives nothing. */
    method RecoverAdded(results: seq<Item>) returns (r: Result<Recovered, Error>)
      modifies api
      ensures var a := AddedFrom(api.respond, pathVal, snakeCase, results, placeAfter);
        r == a.result && api.log == old(api.log) + a.log
      ensures r.Ok? || r == Err(NotText)
    {
      if |results| == 0 {
        return Ok(One(None));
      }
      var ids := AddedIds(results[0]);
      if ids.Err? {
        return Err(ids.error);
      }
      var rec := RecoverData(ids.value);
      r := Ok(rec);
    }

    /** One turn of the `forEach` of `unset`: the saved words and the property's `=value-name=`, then
        `exec("unset")` begun. */
    method BeginUnset(saved: seq<string>, name: string) returns (begun: Result<Pending, Error>)
      requires Valid()
      modifies this, api
      ensures Valid() && proplistVal == old(proplistVal) && needsObjectTranslation == old(needsObjectTranslation)
      ensures var b := Begun(api.respond, pathVal, FullQueryOf(pathVal, "/" + "unset", old(proplistVal), saved + ["=value-name=" + ToDashedCase(name)]),
                             old(needsObjectTranslation), old(placeAfter));
        begun == b.result && api.log == old(api.log) + b.log && placeAfter == b.placeAfter
      ensures begun.Ok? ==> WellFormed(begun.value) && begun.value.translate == needsObjectTranslation
    {
      queryVal := saved + ["=value-name=" + ToDashedCase(name)];
      assert queryVal + DataWords(None) == queryVal;
      begun := BeginExec("unset", None);
    }

    /** One property's `unset` of the `forEach` begun, while none has failed: the outcome grows from that
        of the first `k` properties to that of the first `k + 1`. */
    method BeginNext(saved: seq<string>, names: seq<string>, k: nat, ghost pa0: Value, ghost log0: seq<Request>, pendings: seq<Pending>)
      returns (pendings': seq<Pending>, failure: Option<Error>)
      requires k < |names| && Valid()
      requires var bs := BegunAll(api.respond, pathVal, proplistVal, saved, names[..k], needsObjectTranslation, pa0);
        bs.failure.None? && pendings == bs.pendings && api.log == log0 + bs.log && placeAfter == bs.placeAfter
      requires AllWellFormed(pendings) && AllFlagged(pendings, needsObjectTranslation)
      modifies this, api
      ensures Valid() && proplistVal == old(proplistVal) && needsObjectTranslation == old(needsObjectTranslation)
      ensures var bs := BegunAll(api.respond, pathVal, proplistVal, saved, names[..k + 1], needsObjectTranslation, pa0);
        pendings' == bs.pendings && failure == bs.failure && api.log == log0 + bs.log && placeAfter == bs.placeAfter
      ensures AllWellFormed(pendings') && AllFlagged(pendings', needsObjectTranslation)
    {
      BegunAllStep(api.respond, pathVal, proplistVal, saved, names, k, needsObjectTranslation, pa0);
      ghost var prev := BegunAll(api.respond, pathVal, proplistVal, saved, names[..k], needsObjectTranslation, pa0);
      ghost var b := Begun(api.respond, pathVal, FullQueryOf(pathVal, "/" + "unset", proplistVal, saved + ["=value-name=" + ToDashedCase(names[k])]),
                           needsObjectTranslation, placeAfter);
      var begun := BeginUnset(saved, names[k]);
      assert begun == b.result && api.log == log0 + prev.log + b.log && placeAfter == b.placeAfter;
      AppendAssoc(log0, prev.log, b.log);
      if begun.Err? {
        pendings', failure := pendings, Some(begun.error);
      } else {
        AllWellFormedAppend(pendings, begun.value);
        AllFlaggedAppend(pendings, begun.value, needsObjectTranslation);
        pendings', failure := pendings + [begun.value], None;
      }
    }

    /** The `forEach` of `unset` over `names` on the words `saved`: each property's `unset` begun in turn;
        it stops after the first `k` properties, `k` being all of them or the one that failed. */
    method BeginEach(saved: seq<string>, names: seq<string>) returns (pendings: seq<Pending>, failure: Option<Error>, ghost k: nat)
      requires Valid()
      modifies this, api
      ensures Valid() && proplistVal == old(proplistVal) && needsObjectTranslation == old(needsObjectTranslation)
      ensures k <= |names| && (k == |names| || failure.Some?)
      ensures var bs := BegunAll(api.respond, pathVal, proplistVal, saved, names[..k], needsObjectTranslation, old(placeAfter));
        pendings == bs.pendings && failure == bs.failure && api.log == old(api.log) + bs.log && placeAfter == bs.placeAfter
      ensures AllWellFormed(pendings) && AllFlagged(pendings, needsObjectTranslation)
    {
      ghost var pa0, log0 := placeAfter, api.log;
      pendings := [];
      failure := None;
      var i := 0;
      assert names[..i] == [];
      while i < |names| && failure.None?
        invariant 0 <= i <= |names|
        invariant Valid() && proplistVal == old(proplistVal) && needsObjectTranslation == old(needsObjectTranslation)
        invariant var bs := BegunAll(api.respond, pathVal, proplistVal, saved, names[..i], needsObjectTranslation, pa0);
          pendings == bs.pendings && failure == bs.failure && api.log == log0 + bs.log && placeAfter == bs.placeAfter
        invariant AllWellFormed(pendings) && AllFlagged(pendings, needsObjectTranslation)
      {
        pendings, failure := BeginNext(saved, names, i, pa0, log0, pendings);
        i := i + 1;
      }
      k := i;
    }

    /** The `forEach` of `unset`: every property's `unset` begun on the saved words until one fails. */
    method BeginUnsets(names: seq<string>) returns (pendings: seq<Pending>, failure: Option<Error>)
      requires Valid()
      modifies this, api
      ensures Valid()
      ensures var bs := BegunAll(api.respond, pathVal, old(proplistVal), old(queryVal), names, old(needsObjectTranslation), old(placeAfter));
        pendings == bs.pendings && failure == bs.failure && api.log == old(api.log) + bs.log && placeAfter == bs.placeAfter
      ensures needsObjectTranslation == old(needsObjectTranslation)
      ensures AllWellFormed(pendings) && AllFlagged(pendings, needsObjectTranslation)
      ensures failure.None? ==> |pendings| == |names|
    {
      var curQueryVal := queryVal;
      queryVal := [];
      ghost var k;
      pendings, failure, k := BeginEach(curQueryVal, names);
      BegunAllStops(api.respond, pathVal, proplistVal, curQueryVal, names, k, needsObjectTranslation, old(placeAfter));
      BegunAllCount(api.respond, pathVal, proplistVal, curQueryVal, names, needsObjectTranslation, old(placeAfter));
    }

    /** One pending `unset` of the `Promise.all` finished; `failure` keeps the first error seen. */
    method FinishNext(p: Pending, ghost prev: Finishes, ghost log0: seq<Request>, failure: Option<Error>) returns (next: Option<Error>)
      requires Valid() && WellFormed(p)
      requires !p.translate ==> !needsObjectTranslation
      requires failure == prev.failure && placeAfter == prev.placeAfter && api.log == log0 + prev.log
      modifies this, api
      ensures Valid()
      ensures needsObjectTranslation ==> old(needsObjectTranslation)
      ensures var s := FinishStep(api.respond, pathVal, snakeCase, prev, p);
        next == s.failure && placeAfter == s.placeAfter && api.log == log0 + s.log
      ensures next.None? ==> queryVal == [] && proplistVal == "" && !needsObjectTranslation
    {
      ghost var f := Finished(api.respond, pathVal, snakeCase, p, prev.placeAfter);
      var res := FinishExec(p);
      assert res == f.result && api.log == log0 + prev.log + f.log && placeAfter == f.placeAfter;
      next := if res.Err? && failure.None? then Some(res.error) else failure;
      AppendAssoc(log0, prev.log, f.log);
    }

    /** The `Promise.all` of `unset`: every pending request finished in order; the first failure is reported. */
    method FinishAll(pendings: seq<Pending>) returns (failure: Option<Error>)
      requires Valid()
      requires AllWellFormed(pendings) && AllFlagged(pendings, needsObjectTranslation)
      modifies this, api
      ensures Valid()
      ensures var fs := FinishedAll(api.respond, pathVal, snakeCase, pendings, old(placeAfter));
        failure == fs.failure && api.log == old(api.log) + fs.log && placeAfter == fs.placeAfter
      ensures |pendings| > 0 && failure.None? ==> queryVal == [] && proplistVal == "" && !needsObjectTranslation
    {
      failure := None;
      var j := 0;
      AllWellFormedPrefix(pendings, 0);
      ghost var fs := FinishedAll(api.respond, pathVal, snakeCase, pendings[..j], old(placeAfter));
      while j < |pendings|
        invariant Finishing(pendings, j, fs, failure, old(needsObjectTranslation), old(placeAfter), old(api.log))
      {
        failure, fs := FinishAt(pendings, j, fs, failure, old(needsObjectTranslation), old(placeAfter), old(api.log));
        j := j + 1;
      }
      assert pendings[..j] == pendings;
    }

    /** After the first `j` pendings: their outcome `fs` from `pa0`, its requests sent behind `log0`, its
        first failure in `failure`, and, when one finished and none failed, the builder reset. */
    ghost predicate Finishing(pendings: seq<Pending>, j: nat, fs: Finishes, failure: Option<Error>,
                              flag0: bool, pa0: Value, log0: seq<Request>)
      reads this, api
    {
      && j <= |pendings|
      && Valid()
      && (needsObjectTranslation ==> flag0)
      && AllWellFormed(pendings[..j])
      && fs == FinishedAll(api.respond, pathVal, snakeCase, pendings[..j], pa0)
      && failure == fs.failure && api.log == log0 + fs.log && placeAfter == fs.placeAfter
      && (j > 0 && failure.None? ==> queryVal == [] && proplistVal == "" && !needsObjectTranslation)
    }

    /** One pass of the `Promise.all` of `unset`, at pending `j`: the outcome grows from that of the first
        `j` pendings to that of the first `j + 1`. */
    method FinishAt(pendings: seq<Pending>, j: nat, ghost fs: Finishes, failure: Option<Error>,
                    ghost flag0: bool, ghost pa0: Value, ghost log0: seq<Request>)
      returns (failure': Option<Error>, ghost fs': Finishes)
      requires j < |pendings| && AllWellFormed(pendings) && AllFlagged(pendings, flag0)
      requires Finishing(pendings, j, fs, failure, flag0, pa0, log0)
      modifies this, api
      ensures Finishing(pendings, j + 1, fs', failure', flag0, pa0, log0)
    {
      AllWellFormedPrefix(pendings, j + 1);
      FinishedAllStep(api.respond, pathVal, snakeCase, pendings, j, pa0);
      AllFlaggedAt(pendings, flag0, j);
      failure' := FinishNext(pendings[j], fs, log0, failure);
      fs' := FinishStep(api.respond, pathVal, snakeCase, fs, pendings[j]);
    }

    /** What `unset` does once its targets are known: the `forEach` begins every property's `unset`, the
        `Promise.all` finishes them, then the targets are read back. */
    method UnsetFound(found: string, names: seq<string>) returns (r: Result<Recovered, Error>)
      requires Valid()
      modifies this, api
      ensures Valid()
      ensures var u := UnsetDone(api.respond, pathVal, snakeCase, old(proplistVal), old(queryVal), old(needsObjectTranslation), old(placeAfter), names, found);
        r == u.result && api.log == old(api.log) + u.log && placeAfter == u.placeAfter
      ensures r.Ok? && |names| > 0 ==> queryVal == [] && proplistVal == "" && !needsObjectTranslation
    {
      ghost var log0 := api.log;
      ghost var bs := BegunAll(api.respond, pathVal, proplistVal, queryVal, names, needsObjectTranslation, placeAfter);
      var pendings, begunFailure := BeginUnsets(names);
      assert pendings == bs.pendings && begunFailure == bs.failure && api.log == log0 + bs.log && placeAfter == bs.placeAfter;
      ghost var fs := FinishedAll(api.respond, pathVal, snakeCase, bs.pendings, bs.placeAfter);
      var finishFailure := FinishAll(pendings);
      assert finishFailure == fs.failure && api.log == log0 + bs.log + fs.log && placeAfter == fs.placeAfter;
      AppendAssoc(log0, bs.log, fs.log);
      if begunFailure.Some? {
        return Err(begunFailure.value);
      }
      if finishFailure.Some? {
        return Err(finishFailure.value);
      }
      var rec := RecoverData(Some(found));
      AppendAssoc(log0, bs.log + fs.log, SentAll(RecoverSentences(pathVal, Some(found))));
      r := Ok(rec);
    }

    /** `unset(properties, ids)`: the listed properties of the targets are unset, then the targets read back. */
    method Unset(properties: Properties, ids: Value) returns (r: Result<Recovered, Error>)
      requires Valid()
      modifies this, api
      ensures Valid()
      ensures var v := Unsetted(api.respond, pathVal, snakeCase, old(State()), properties, ids);
        r == v.result && api.log == old(api.log) + v.log && placeAfter == v.placeAfter
      ensures r.Ok? && |PropertyNames(properties)| > 0 ==> queryVal == [] && proplistVal == "" && !needsObjectTranslation
    {
      ghost var log0 := api.log;
      var found := Target(ids);
      ghost var t := TargetOf(api.respond, pathVal, snakeCase, old(queryVal), old(proplistVal), ids);
      assert needsObjectTranslation == TargetFlag(old(State()), ids);
      var names := PropertyNames(properties);
      r := UnsetFound(found, names);
      ghost var u := UnsetDone(api.respond, pathVal, snakeCase, t.proplist, t.query, TargetFlag(old(State()), ids), old(placeAfter), names, t.ids);
      AppendAssoc(log0, t.log, u.log);
    }
  }
}
