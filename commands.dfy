/**
 * `RosApiCommands`: the fluent filters of the query builder (`select`,
 * `where` and its variants) and the reading commands built on them
 * (`get`, `find`, `purge`, `stream`). The source class extends the CRUD
 * builder; here a `Commands` object owns one `Crud` builder and works on
 * its fields.
 */
module RosApiCommands {
  import opened Wrappers
  import opened Text
  import opened Json
  import opened Sentences
  import opened RawApi
  import opened RosApiCrud

  /** The first argument of `where` and its variants: one key, or an object of keys and values. */
  datatype Search = Key(name: string) | Fields(params: Params)

  /** The object `where` hands to `makeQuery`: a single key takes the value (`""` when none is given). */
  function SearchParams(key: Search, value: Value): (ps: Params)
    ensures key.Key? ==> ps == [(key.name, value)]
    ensures key.Fields? ==> ps == key.params
  {
    match key
    case Key(name) => [(name, value)]
    case Fields(params) => params
  }

  /** A key that starts with one of the comparison operators `>`, `<` or `-` is never the
      `placeAfter` parameter, so `whereHigher`, `whereLower`, `whereExists` and `whereEmpty` leave a
      pending `placeAfter` as it was. */
  lemma {:induction false} OperatorKeyKeepsPlaceAfter(op: char, key: string, value: Value, pa: Value)
    requires op == '>' || op == '<' || op == '-'
    ensures PlaceAfterOf(SearchParams(Key([op] + key), value), pa) == pa
  {
    var k := ReplaceFirstUnderscore([op] + key);
    assert k[0] == op;
    var ps := SearchParams(Key([op] + key), value);
    assert ps[..|ps| - 1] == [];
  }

  // ---- select ----

  /** The internal names `select` writes with a leading `.`. */
  predicate InternalName(field: string) {
    field == "id" || field == "dead" || field == "nextid"
  }

  /** `select`'s rewrite of one field. */
  function SelectedField(field: string): string {
    if InternalName(field) then "." + field else field
  }

  /** The fields after `select`'s loop, in order. */
  function SelectedFields(fields: seq<string>): (r: seq<string>)
    ensures |r| == |fields|
  {
    if |fields| == 0 then [] else SelectedFields(fields[..|fields| - 1]) + [SelectedField(fields[|fields| - 1])]
  }

  lemma SelectedFieldsStep(fields: seq<string>, k: nat)
    requires k < |fields|
    ensures SelectedFields(fields[..k + 1]) == SelectedFields(fields[..k]) + [SelectedField(fields[k])]
  {
    assert fields[..k + 1][..k] == fields[..k];
  }

  /** Each field is rewritten on its own, in place: an internal name gains its `.`, any other is kept. */
  lemma {:induction false} SelectedFieldAt(fields: seq<string>, i: nat)
    requires i < |fields|
    ensures InternalName(fields[i]) ==> SelectedFields(fields)[i] == "." + fields[i]
    ensures !InternalName(fields[i]) ==> SelectedFields(fields)[i] == fields[i]
  {
    if i < |fields| - 1 {
      SelectedFieldAt(fields[..|fields| - 1], i);
    }
  }

  /** The `.proplist` word of `select(fields)`. */
  function ProplistOf(fields: seq<string>): string {
    "=.proplist=" + Join(",", SelectedFields(fields))
  }

  /** The proplist word names exactly the selected fields, in order, when no field holds a comma. */
  lemma ProplistNames(fields: seq<string>)
    requires |fields| > 0
    requires forall i :: 0 <= i < |fields| ==> ',' !in fields[i]
    ensures var p := ProplistOf(fields);
      |p| >= 11 && p[..11] == "=.proplist=" && Split(p[11..], ',') == SelectedFields(fields)
  {
    var sel := SelectedFields(fields);
    forall i | 0 <= i < |sel|
      ensures ',' !in sel[i]
    {
      SelectedFieldAt(fields, i);
    }
    JoinSplit(sel, ',');
    var p := ProplistOf(fields);
    assert p[11..] == Join(",", sel);
  }

  // ---- options ----

  /** The object `options` builds: every option a key with value `""`, a repeated option keeping its
      first place. */
  function OptionParams(opts: seq<string>): Params {
    if |opts| == 0 then []
    else
      var init := OptionParams(opts[..|opts| - 1]);
      if opts[|opts| - 1] in Keys(init) then init else init + [(opts[|opts| - 1], Str(""))]
  }

  /** `options` names every option once and nothing else, each with the empty value. */
  lemma {:induction false} OptionParamsKeys(opts: seq<string>)
    ensures forall o :: o in opts <==> o in Keys(OptionParams(opts))
    ensures Distinct(Keys(OptionParams(opts)))
    ensures forall i :: 0 <= i < |OptionParams(opts)| ==> OptionParams(opts)[i].1 == Str("")
  {
    if |opts| > 0 {
      var init := OptionParams(opts[..|opts| - 1]);
      var last := opts[|opts| - 1];
      OptionParamsKeys(opts[..|opts| - 1]);
      assert opts == opts[..|opts| - 1] + [last];
      if last !in Keys(init) {
        assert Keys(init + [(last, Str(""))]) == Keys(init) + [last];
      }
    }
  }

  lemma OptionParamsStep(opts: seq<string>, k: nat)
    requires k < |opts|
    ensures OptionParams(opts[..k + 1]) ==
      if opts[k] in Keys(OptionParams(opts[..k])) then OptionParams(opts[..k])
      else OptionParams(opts[..k]) + [(opts[k], Str(""))]
  {
    assert opts[..k + 1][..k] == opts[..k];
  }

  // ---- purge ----

  /** The first sentence of `purge`: every entry of the menu, `.id` only. */
  function PurgePrint(path: string): Sentence {
    [path + "/print", "=.proplist=.id"]
  }

  /** The second sentence of `purge`: remove the entries whose ids were printed. */
  function PurgeRemove(path: string, ids: seq<string>): Sentence {
    [path + "/remove", "=numbers=" + Join(",", ids)]
  }

  /** `String(result[key])` of every item, an absent key printing as nothing (as in an array's `toString`). */
  function IdsUnder(items: seq<Item>, key: string): (ids: seq<string>)
    ensures |ids| == |items|
  {
    seq(|items|, i requires 0 <= i < |items| => if key in items[i] then FieldText(items[i][key]) else "")
  }

  /** What `purge` reads its ids from, as written: `.id`, a name normalised replies no longer have. */
  const AsWrittenIdKey := ".id"
  /** The name normalised replies carry the router's `.id` under. */
  const IdKey := "id"

  /** A printed entry of `purge`'s first reply: only its `.id`. */
  function IdRaws(ids: seq<string>): (raws: seq<RawItem>)
    ensures |raws| == |ids|
  {
    seq(|ids|, i requires 0 <= i < |ids| => [(".id", ids[i])])
  }

  /** A RouterOS internal id: `*` and then anything. */
  predicate InternalId(id: string) {
    |id| > 0 && id[0] == '*'
  }

  lemma IdItem(path: string, id: string, snakeCase: bool)
    ensures TreatItem(path, [(".id", id)], snakeCase) == map["$$path" := Text(path), "id" := Cast(id)]
  {
    ReplyKeyOfId(snakeCase);
    assert [(".id", id)][..0] == [];
  }

  /** As written, `purge` loses every id: the items it reads carry `id`, never `.id`, so its remove
      names no entry (`=numbers=` followed only by commas). */
  lemma {:induction false} PurgeIdsLost(path: string, ids: seq<string>, snakeCase: bool)
    ensures IdsUnder(TreatAll(path, IdRaws(ids), snakeCase), AsWrittenIdKey) == seq(|ids|, i => "")
  {
    var items := TreatAll(path, IdRaws(ids), snakeCase);
    forall i | 0 <= i < |ids|
      ensures AsWrittenIdKey !in items[i]
    {
      TreatAllAt(path, IdRaws(ids), snakeCase, i);
      IdItem(path, ids[i], snakeCase);
    }
  }

  /** Two printed entries: the remove sentence as written names no id at all. */
  lemma PurgeTwoEntries(path: string, snakeCase: bool)
    ensures var items := TreatAll(path, IdRaws(["*1", "*2"]), snakeCase);
      PurgeRemove(path, IdsUnder(items, AsWrittenIdKey)) == [path + "/remove", "=numbers=,"]
  {
    PurgeIdsLost(path, ["*1", "*2"], snakeCase);
    var blank := IdsUnder(TreatAll(path, IdRaws(["*1", "*2"]), snakeCase), AsWrittenIdKey);
    assert blank == seq(2, i => "") == ["", ""];
    assert blank[1..] == [""];
    assert Join(",", blank) == ",";
    assert PurgeRemove(path, blank) == [path + "/remove", "=numbers=" + ","];
    assert "=numbers=" + "," == "=numbers=,";
  }

  lemma InternalIdText(id: string)
    requires InternalId(id)
    ensures Cast(id) == Text(id)
  {
    assert !IsDigit(id[0]);
  }

  /** Reading `id`, `purge` removes exactly the entries it printed, in the order printed. */
  lemma {:induction false} PurgeIdsKept(path: string, ids: seq<string>, snakeCase: bool)
    requires forall i :: 0 <= i < |ids| ==> InternalId(ids[i])
    ensures IdsUnder(TreatAll(path, IdRaws(ids), snakeCase), IdKey) == ids
  {
    var items := TreatAll(path, IdRaws(ids), snakeCase);
    forall i | 0 <= i < |ids|
      ensures IdsUnder(items, IdKey)[i] == ids[i]
    {
      TreatAllAt(path, IdRaws(ids), snakeCase, i);
      IdItem(path, ids[i], snakeCase);
      InternalIdText(ids[i]);
    }
  }

  /** The remove word of the corrected `purge` splits back into the printed ids. */
  lemma PurgeRemovesPrinted(path: string, ids: seq<string>, snakeCase: bool)
    requires |ids| > 0
    requires forall i :: 0 <= i < |ids| ==> InternalId(ids[i]) && ',' !in ids[i]
    ensures var word := PurgeRemove(path, IdsUnder(TreatAll(path, IdRaws(ids), snakeCase), IdKey))[1];
      |word| >= 9 && word[..9] == "=numbers=" && Split(word[9..], ',') == ids
  {
    PurgeIdsKept(path, ids, snakeCase);
    JoinSplit(ids, ',');
    var word := "=numbers=" + Join(",", ids);
    assert word[9..] == Join(",", ids);
  }

  // ---- stream ----

  /** What `stream` appends to the menu: nothing when a callback came first or no action is given,
      otherwise `/` and the action without one leading `/`. */
  function StreamAppend(action: Option<string>): string {
    match action
    case None => ""
    case Some(a) => if a == "" then "" else "/" + (if a[0] == '/' then a[1..] else a)
  }

  /** `stream("listen")` and `stream("/listen")` stream the same sentence. */
  lemma StreamSlashOptional(a: string)
    requires a != "" && a[0] != '/'
    ensures StreamAppend(Some("/" + a)) == StreamAppend(Some(a)) == "/" + a
  {
    assert ("/" + a)[1..] == a;
  }

  class Commands {
    const crud: Crud

    predicate Valid()
      reads crud
    {
      crud.Valid()
    }

    constructor (api: Api, path: string, snakeCase: bool)
      ensures crud.api == api && crud.snakeCase == snakeCase && crud.pathVal == NormalizePath(path)
      ensures crud.queryVal == [] && crud.proplistVal == "" && !crud.needsObjectTranslation && crud.placeAfter == Null
      ensures Valid()
    {
      crud := new Crud(api, path, snakeCase);
    }

    /** `select(fields)` (and `only`, `proplist`): the proplist is replaced by the selected fields. */
    method Select(fields: seq<string>)
      modifies crud
      ensures crud.proplistVal == ProplistOf(fields)
      ensures crud.queryVal == old(crud.queryVal) && crud.needsObjectTranslation == old(crud.needsObjectTranslation)
      ensures crud.placeAfter == old(crud.placeAfter)
    {
      var fs := fields;
      var i := 0;
      while i < |fs|
        invariant 0 <= i <= |fs| == |fields|
        invariant fs[..i] == SelectedFields(fields[..i]) && fs[i..] == fields[i..]
        invariant unchanged(crud)
      {
        SelectedFieldsStep(fields, i);
        assert fs[i] == fields[i] by { assert fs[i..][0] == fields[i..][0]; }
        if InternalName(fs[i]) {
          fs := fs[i := "." + fs[i]];
        }
        assert fs[..i + 1] == fs[..i] + [fs[i]];
        assert fs[i + 1..] == fs[i..][1..];
        i := i + 1;
      }
      assert fs == fs[..i] && fields[..i] == fields;
      crud.proplistVal := "=.proplist=" + Join(",", fs);
    }

    /** `where(key, value, addQuestionMark)`: one word per key, appended to the builder. */
    method Where(key: Search, value: Value, addQuestionMark: bool)
      requires Valid()
      modifies crud
      ensures Valid()
      ensures crud.queryVal == old(crud.queryVal) + ParamWords(SearchParams(key, value), addQuestionMark)
      ensures crud.needsObjectTranslation == (old(crud.needsObjectTranslation) || AnyNeedsTranslation(SearchParams(key, value)))
      ensures crud.placeAfter == PlaceAfterOf(SearchParams(key, value), old(crud.placeAfter))
      ensures crud.proplistVal == old(crud.proplistVal)
    {
      var _ := crud.MakeQuery(SearchParams(key, value), addQuestionMark, true);
    }

    /** `query` and `filter`: `where` with `=` words. */
    method Query(key: Search, value: Value)
      requires Valid()
      modifies crud
      ensures Valid()
      ensures crud.queryVal == old(crud.queryVal) + ParamWords(SearchParams(key, value), false)
      ensures crud.needsObjectTranslation == (old(crud.needsObjectTranslation) || AnyNeedsTranslation(SearchParams(key, value)))
      ensures crud.placeAfter == PlaceAfterOf(SearchParams(key, value), old(crud.placeAfter))
      ensures crud.proplistVal == old(crud.proplistVal)
    {
      Where(key, value, false);
    }

    /** `options(opts, ...args)`: every option as an `=option=` word. */
    method Options(opts: seq<string>)
      requires Valid()
      modifies crud
      ensures Valid()
      ensures crud.queryVal == old(crud.queryVal) + ParamWords(OptionParams(opts), false)
      ensures crud.needsObjectTranslation == old(crud.needsObjectTranslation)
      ensures crud.placeAfter == PlaceAfterOf(OptionParams(opts), old(crud.placeAfter))
      ensures crud.proplistVal == old(crud.proplistVal)
    {
      var optObj := OptionObject(opts);
      OptionParamsKeys(opts);
      ScalarsNeedNoTranslation(optObj);
      Where(Fields(optObj), Str(""), false);
    }

    /** `whereRaw(search)`: the words verbatim, in order. */
    method WhereRaw(search: seq<string>)
      modifies crud
      ensures crud.queryVal == old(crud.queryVal) + search
      ensures crud.proplistVal == old(crud.proplistVal) && crud.needsObjectTranslation == old(crud.needsObjectTranslation)
      ensures crud.placeAfter == old(crud.placeAfter)
    {
      crud.queryVal := crud.queryVal + search;
    }

    /** `where(key, value)` followed by the query-stack operator words. */
    method WhereThen(key: Search, value: Value, operators: seq<string>)
      requires Valid()
      modifies crud
      ensures Valid()
      ensures crud.queryVal == old(crud.queryVal) + ParamWords(SearchParams(key, value), true) + operators
      ensures crud.needsObjectTranslation == (old(crud.needsObjectTranslation) || AnyNeedsTranslation(SearchParams(key, value)))
      ensures crud.placeAfter == PlaceAfterOf(SearchParams(key, value), old(crud.placeAfter))
      ensures crud.proplistVal == old(crud.proplistVal)
    {
      Where(key, value, true);
      crud.queryVal := crud.queryVal + operators;
    }

    /** `orWhere`: the condition, then `?#|`. */
    method OrWhere(key: Search, value: Value)
      requires Valid()
      modifies crud
      ensures Valid()
      ensures crud.queryVal == old(crud.queryVal) + ParamWords(SearchParams(key, value), true) + ["?#|"]
      ensures crud.needsObjectTranslation == (old(crud.needsObjectTranslation) || AnyNeedsTranslation(SearchParams(key, value)))
      ensures crud.placeAfter == PlaceAfterOf(SearchParams(key, value), old(crud.placeAfter))
      ensures crud.proplistVal == old(crud.proplistVal)
    {
      WhereThen(key, value, ["?#|"]);
    }

    /** `orWhereNot`: the condition, then `?#!` and `?#|`. */
    method OrWhereNot(key: Search, value: Value)
      requires Valid()
      modifies crud
      ensures Valid()
      ensures crud.queryVal == old(crud.queryVal) + ParamWords(SearchParams(key, value), true) + ["?#!", "?#|"]
      ensures crud.needsObjectTranslation == (old(crud.needsObjectTranslation) || AnyNeedsTranslation(SearchParams(key, value)))
      ensures crud.placeAfter == PlaceAfterOf(SearchParams(key, value), old(crud.placeAfter))
      ensures crud.proplistVal == old(crud.proplistVal)
    {
      WhereThen(key, value, ["?#!", "?#|"]);
    }

    /** `andWhere`: the condition, then `?#&`. */
    method AndWhere(key: Search, value: Value)
      requires Valid()
      modifies crud
      ensures Valid()
      ensures crud.queryVal == old(crud.queryVal) + ParamWords(SearchParams(key, value), true) + ["?#&"]
      ensures crud.needsObjectTranslation == (old(crud.needsObjectTranslation) || AnyNeedsTranslation(SearchParams(key, value)))
      ensures crud.placeAfter == PlaceAfterOf(SearchParams(key, value), old(crud.placeAfter))
      ensures crud.proplistVal == old(crud.proplistVal)
    {
      WhereThen(key, value, ["?#&"]);
    }

    /** `andWhereNot`: the condition, then `?#!` and `?#&`. */
    method AndWhereNot(key: Search, value: Value)
      requires Valid()
      modifies crud
      ensures Valid()
      ensures crud.queryVal == old(crud.queryVal) + ParamWords(SearchParams(key, value), true) + ["?#!", "?#&"]
      ensures crud.needsObjectTranslation == (old(crud.needsObjectTranslation) || AnyNeedsTranslation(SearchParams(key, value)))
      ensures crud.placeAfter == PlaceAfterOf(SearchParams(key, value), old(crud.placeAfter))
      ensures crud.proplistVal == old(crud.proplistVal)
    {
      WhereThen(key, value, ["?#!", "?#&"]);
    }

    /** `whereNot`: the condition, then `?#!`. */
    method WhereNot(key: Search, value: Value)
      requires Valid()
      modifies crud
      ensures Valid()
      ensures crud.queryVal == old(crud.queryVal) + ParamWords(SearchParams(key, value), true) + ["?#!"]
      ensures crud.needsObjectTranslation == (old(crud.needsObjectTranslation) || AnyNeedsTranslation(SearchParams(key, value)))
      ensures crud.placeAfter == PlaceAfterOf(SearchParams(key, value), old(crud.placeAfter))
      ensures crud.proplistVal == old(crud.proplistVal)
    {
      WhereThen(key, value, ["?#!"]);
    }

    /** `whereHigher(key, value)`: the key prefixed with `>`. */
    method WhereHigher(key: string, value: Value)
      requires Valid()
      modifies crud
      ensures Valid()
      ensures crud.queryVal == old(crud.queryVal) + [ParamWord(true, ">" + key, value)]
      ensures crud.needsObjectTranslation == (old(crud.needsObjectTranslation) || AnyNeedsTranslation(SearchParams(Key(">" + key), value)))
      ensures crud.placeAfter == old(crud.placeAfter)
      ensures crud.proplistVal == old(crud.proplistVal)
    {
      Where(Key(">" + key), value, true);
      ParamWordsOne(">" + key, value, true);
      OperatorKeyKeepsPlaceAfter('>', key, value, old(crud.placeAfter));
    }

    /** `whereLower(key, value)`: the key prefixed with `<`. */
    method WhereLower(key: string, value: Value)
      requires Valid()
      modifies crud
      ensures Valid()
      ensures crud.queryVal == old(crud.queryVal) + [ParamWord(true, "<" + key, value)]
      ensures crud.needsObjectTranslation == (old(crud.needsObjectTranslation) || AnyNeedsTranslation(SearchParams(Key("<" + key), value)))
      ensures crud.placeAfter == old(crud.placeAfter)
      ensures crud.proplistVal == old(crud.proplistVal)
    {
      Where(Key("<" + key), value, true);
      ParamWordsOne("<" + key, value, true);
      OperatorKeyKeepsPlaceAfter('<', key, value, old(crud.placeAfter));
    }

    /** `whereExists` and `whereNotEmpty`: `?>key=`. */
    method WhereExists(key: string)
      requires Valid()
      modifies crud
      ensures Valid()
      ensures crud.queryVal == old(crud.queryVal) + [ParamWord(true, ">" + key, Str(""))]
      ensures crud.needsObjectTranslation == old(crud.needsObjectTranslation) && crud.placeAfter == old(crud.placeAfter)
      ensures crud.proplistVal == old(crud.proplistVal)
    {
      WhereHigher(key, Str(""));
    }

    /** `whereEmpty` and `whereNotExists`: `?-key=`. */
    method WhereEmpty(key: string)
      requires Valid()
      modifies crud
      ensures Valid()
      ensures crud.queryVal == old(crud.queryVal) + [ParamWord(true, "-" + key, Str(""))]
      ensures crud.needsObjectTranslation == old(crud.needsObjectTranslation) && crud.placeAfter == old(crud.placeAfter)
      ensures crud.proplistVal == old(crud.proplistVal)
    {
      Where(Key("-" + key), Str(""), true);
      ParamWordsOne("-" + key, Str(""), true);
      OperatorKeyKeepsPlaceAfter('-', key, Str(""), old(crud.placeAfter));
    }

    /** `get(data)` (and `getAll`, `print`): the filter words of `data`, then the print sentence written
        as it stands; the builder is emptied. */
    method Get(data: Option<Params>) returns (items: seq<Item>)
      requires Valid()
      modifies crud, crud.api
      ensures Valid()
      ensures var q := FullQueryOf(crud.pathVal, "/print", old(crud.proplistVal), old(crud.queryVal) + GetWords(data));
        items == TreatAll(crud.pathVal, crud.api.respond(q), crud.snakeCase) && crud.api.log == old(crud.api.log) + [Sent(q)]
      ensures crud.queryVal == [] && crud.proplistVal == ""
      ensures crud.needsObjectTranslation == (old(crud.needsObjectTranslation) || DataFlag(data))
      ensures crud.placeAfter == DataPlaceAfter(data, old(crud.placeAfter))
    {
      if data.Some? {
        var _ := crud.MakeQuery(data.value, true, true);
      }
      assert crud.queryVal == old(crud.queryVal) + GetWords(data) && crud.proplistVal == old(crud.proplistVal);
      var query := crud.FullQuery("/print");
      items := crud.Write(query);
    }

    /** `find(data)` (and `first`, `getOne`, `getOnly`): the first printed item, or nothing. */
    method Find(data: Option<Params>) returns (r: Option<Item>)
      requires Valid()
      modifies crud, crud.api
      ensures Valid()
      ensures var q := FullQueryOf(crud.pathVal, "/print", old(crud.proplistVal), old(crud.queryVal) + GetWords(data));
        var reply := crud.api.respond(q);
        crud.api.log == old(crud.api.log) + [Sent(q)] &&
        (r.None? <==> |reply| == 0) && (r.Some? ==> r.value == TreatItem(crud.pathVal, reply[0], crud.snakeCase))
      ensures crud.queryVal == [] && crud.proplistVal == ""
      ensures crud.needsObjectTranslation == (old(crud.needsObjectTranslation) || DataFlag(data))
      ensures crud.placeAfter == DataPlaceAfter(data, old(crud.placeAfter))
    {
      var results := Get(data);
      if |results| > 0 {
        TreatAllAt(crud.pathVal, crud.api.respond(FullQueryOf(crud.pathVal, "/print", old(crud.proplistVal), old(crud.queryVal) + GetWords(data))), crud.snakeCase, 0);
        r := Some(results[0]);
      } else {
        r := None;
      }
    }

    /** `purge()` as written: the ids are read from `.id` of the normalised items. */
    method PurgeAsWritten() returns (items: seq<Item>)
      modifies crud, crud.api
      ensures var printed := TreatAll(crud.pathVal, crud.api.respond(PurgePrint(crud.pathVal)), crud.snakeCase);
        var q := PurgeRemove(crud.pathVal, IdsUnder(printed, AsWrittenIdKey));
        items == TreatAll(crud.pathVal, crud.api.respond(q), crud.snakeCase) &&
        crud.api.log == old(crud.api.log) + [Sent(PurgePrint(crud.pathVal)), Sent(q)]
      ensures crud.queryVal == [] && crud.proplistVal == ""
      ensures crud.needsObjectTranslation == old(crud.needsObjectTranslation) && crud.placeAfter == old(crud.placeAfter)
    {
      items := PurgeBy(AsWrittenIdKey);
    }

    /** `purge()`: every entry printed, then all of them removed in one sentence. */
    method Purge() returns (items: seq<Item>)
      modifies crud, crud.api
      ensures var printed := TreatAll(crud.pathVal, crud.api.respond(PurgePrint(crud.pathVal)), crud.snakeCase);
        var q := PurgeRemove(crud.pathVal, IdsUnder(printed, IdKey));
        items == TreatAll(crud.pathVal, crud.api.respond(q), crud.snakeCase) &&
        crud.api.log == old(crud.api.log) + [Sent(PurgePrint(crud.pathVal)), Sent(q)]
      ensures crud.queryVal == [] && crud.proplistVal == ""
      ensures crud.needsObjectTranslation == old(crud.needsObjectTranslation) && crud.placeAfter == old(crud.placeAfter)
    {
      items := PurgeBy(IdKey);
    }

    /** The two writes of `purge`, reading the ids under `key`. */
    method PurgeBy(key: string) returns (items: seq<Item>)
      modifies crud, crud.api
      ensures var printed := TreatAll(crud.pathVal, crud.api.respond(PurgePrint(crud.pathVal)), crud.snakeCase);
        var q := PurgeRemove(crud.pathVal, IdsUnder(printed, key));
        items == TreatAll(crud.pathVal, crud.api.respond(q), crud.snakeCase) &&
        crud.api.log == old(crud.api.log) + [Sent(PurgePrint(crud.pathVal)), Sent(q)]
      ensures crud.queryVal == [] && crud.proplistVal == ""
      ensures crud.needsObjectTranslation == old(crud.needsObjectTranslation) && crud.placeAfter == old(crud.placeAfter)
    {
      var results := crud.Write([crud.pathVal + "/print", "=.proplist=.id"]);
      var ids: seq<string> := [];
      var k := 0;
      label Printed:
      while k < |results|
        invariant 0 <= k <= |results|
        invariant ids == IdsUnder(results[..k], key)
        invariant unchanged@Printed(crud) && unchanged@Printed(crud.api)
      {
        ids := ids + [if key in results[k] then FieldText(results[k][key]) else ""];
        k := k + 1;
      }
      assert results[..k] == results;
      items := crud.Write([crud.pathVal + "/remove", "=numbers=" + Join(",", ids)]);
    }

    /** `stream(action)`: the sentence as it stands with the action appended, handed to the raw stream;
        the builder's words and proplist are cleared. */
    method Stream(action: Option<string>)
      modifies crud, crud.api
      ensures crud.api.log == old(crud.api.log) +
        [Streamed(FullQueryOf(crud.pathVal, StreamAppend(action), old(crud.proplistVal), old(crud.queryVal)))]
      ensures crud.queryVal == [] && crud.proplistVal == ""
      ensures crud.needsObjectTranslation == old(crud.needsObjectTranslation) && crud.placeAfter == old(crud.placeAfter)
    {
      var append := "";
      if action.Some? && action.value != "" {
        var a := action.value;
        if a[0] == '/' {
          a := a[1..];
        }
        append := "/" + a;
      }
      var query := crud.FullQuery(append);
      crud.queryVal := [];
      crud.proplistVal := "";
      crud.api.Stream(query);
    }
  }

  /** The object `options` fills: each option set to `""` in turn. */
  method OptionObject(opts: seq<string>) returns (optObj: Params)
    ensures optObj == OptionParams(opts)
  {
    optObj := [];
    var k := 0;
    while k < |opts|
      invariant 0 <= k <= |opts|
      invariant optObj == OptionParams(opts[..k])
    {
      OptionParamsStep(opts, k);
      if opts[k] !in Keys(optObj) {
        optObj := optObj + [(opts[k], Str(""))];
      }
      k := k + 1;
    }
    assert opts[..k] == opts;
  }

  /** The filter words `get(data)` adds: `data`'s parameters as `?` words. */
  function GetWords(data: Option<Params>): seq<string> {
    if data.Some? then ParamWords(data.value, true) else []
  }

  /** One key gives one word. */
  lemma ParamWordsOne(key: string, v: Value, addQuestionMark: bool)
    ensures ParamWords([(key, v)], addQuestionMark) == [ParamWord(addQuestionMark, key, v)]
  {
    ParamWordsStep([(key, v)], 0, addQuestionMark);
    assert [(key, v)][..1] == [(key, v)];
    assert [(key, v)][..0] == [];
  }
}
