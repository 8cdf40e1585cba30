/**
 * The pure part of the query builder: how a menu path is normalised, how a
 * sentence is assembled, how a parameter map becomes API words, how reply
 * items are normalised, and how references to items are found in a sentence
 * and replaced by the ids a lookup returned.
 */
module Sentences {
  import opened Wrappers
  import opened Text
  import opened Json
  import opened Utils

  /** The words of one API command. */
  type Sentence = seq<string>

  /** A parameter map, in the order its own keys are enumerated. */
  type Params = seq<(string, Value)>

  /** One reply item as the raw API hands it over: router property names and their text values. */
  type RawItem = seq<(string, string)>

  // ---- menu path ----

  function SpacesToSlashes(s: string): (r: string)
    ensures |r| == |s| && ' ' !in r
    ensures forall i :: 0 <= i < |s| && s[i] != ' ' ==> r[i] == s[i]
  {
    seq(|s|, i requires 0 <= i < |s| => if s[i] == ' ' then '/' else s[i])
  }

  /** `/(print|enable|disable|add|set|remove|getall|move)$/`. */
  predicate EndsWithVerb(s: string) {
    || EndsWith(s, "print") || EndsWith(s, "enable") || EndsWith(s, "disable") || EndsWith(s, "add")
    || EndsWith(s, "set") || EndsWith(s, "remove") || EndsWith(s, "getall") || EndsWith(s, "move")
  }

  /** The length of the verb the regular expression removes: the leftmost match ending the text.
      Only `move` ends another verb (`remove`), and the leftmost match is then the longer one. */
  function VerbLength(s: string): (n: nat)
    ensures n <= |s| && (n == 0 <==> !EndsWithVerb(s))
  {
    if EndsWith(s, "remove") then 6
    else if EndsWith(s, "disable") then 7
    else if EndsWith(s, "enable") || EndsWith(s, "getall") then 6
    else if EndsWith(s, "print") then 5
    else if EndsWith(s, "move") then 4
    else if EndsWith(s, "add") || EndsWith(s, "set") then 3
    else 0
  }

  function StripVerb(s: string): (r: string)
    ensures StartsWith(s, r)
  {
    s[..|s| - VerbLength(s)]
  }

  function StripSlash(s: string): string {
    if |s| > 0 && s[|s| - 1] == '/' then s[..|s| - 1] else s
  }

  /** The constructor's menu path: spaces become `/`, one trailing verb and then one trailing `/` are dropped. */
  function NormalizePath(path: string): (r: string)
    ensures ' ' !in r
  {
    StripSlash(StripVerb(SpacesToSlashes(path)))
  }

  /** Behind a `/`, the text ends with a word without `/` exactly when the last segment does. */
  lemma SegmentSuffix(base: string, seg: string, u: string)
    requires '/' !in u
    ensures EndsWith(base + "/" + seg, u) <==> EndsWith(seg, u)
  {
    var s := base + "/" + seg;
    if |u| > |seg| {
      assert u[|u| - |seg| - 1] != '/';
      assert s[|s| - |seg| - 1] == '/';
    } else {
      assert s[|s| - |u|..] == seg[|seg| - |u|..];
    }
  }

  lemma VerbOfSegment(base: string, verb: string)
    requires verb == "print" || verb == "enable" || verb == "disable" || verb == "add"
          || verb == "set" || verb == "remove" || verb == "getall" || verb == "move"
    ensures VerbLength(base + "/" + verb) == |verb|
  {
    SegmentSuffix(base, verb, "print");
    SegmentSuffix(base, verb, "enable");
    SegmentSuffix(base, verb, "disable");
    SegmentSuffix(base, verb, "add");
    SegmentSuffix(base, verb, "set");
    SegmentSuffix(base, verb, "remove");
    SegmentSuffix(base, verb, "getall");
    SegmentSuffix(base, verb, "move");
  }

  /** A menu followed by `/` and a verb normalises to the menu. */
  lemma NormalizeVerbPath(base: string, verb: string)
    requires verb == "print" || verb == "enable" || verb == "disable" || verb == "add"
          || verb == "set" || verb == "remove" || verb == "getall" || verb == "move"
    requires ' ' !in base && (|base| == 0 || base[|base| - 1] != '/')
    ensures NormalizePath(base + "/" + verb) == base
  {
    var s := base + "/" + verb;
    assert ' ' !in verb && ' ' !in s;
    SpacesKept(s);
    assert NormalizePath(s) == StripSlash(StripVerb(s));
    VerbOfSegment(base, verb);
    PrefixOfAppend(base + "/", verb);
    assert StripVerb(s) == base + "/";
    PrefixOfAppend(base, "/");
  }

  lemma SpacesKept(s: string)
    requires ' ' !in s
    ensures SpacesToSlashes(s) == s
  {
  }

  /** A menu that ends with neither a verb nor `/` and holds no space is kept as it is. */
  lemma NormalizePlainPath(base: string)
    requires ' ' !in base && !EndsWithVerb(base) && (|base| == 0 || base[|base| - 1] != '/')
    ensures NormalizePath(base) == base
  {
    assert SpacesToSlashes(base) == base;
  }

  // ---- sentence assembly ----

  /** The first word names a command whose words may hold queries. */
  predicate IsPrint(w: string) {
    EndsWith(w, "print") || EndsWith(w, "getall")
  }

  /** `replace(/^\?/, "=")`. */
  function QuestionToEquals(w: string): (r: string)
    ensures |r| == |w| && (|r| > 0 ==> r[0] != '?')
    ensures |w| > 0 && w[0] != '?' ==> r == w
  {
    if |w| > 0 && w[0] == '?' then "=" + w[1..] else w
  }

  /** The words `fullQuery(append)` assembles before any `?` is rewritten. */
  function Assemble(path: string, append: string, proplist: string, query: seq<string>): (words: Sentence)
    ensures |words| == 1 + (if proplist != "" then 1 else 0) + |query|
    ensures words[0] == path + append
    ensures words[|words| - |query|..] == query
    ensures proplist != "" ==> words[1] == proplist
  {
    [path + append] + (if proplist != "" then [proplist] else []) + query
  }

  /** `fullQuery(append)`: the assembled words, with the leading `?` of every word turned into `=`
      unless the first word ends with `print` or `getall`. */
  function FullQueryOf(path: string, append: string, proplist: string, query: seq<string>): Sentence {
    var words := Assemble(path, append, proplist, query);
    if IsPrint(words[0]) then words
    else seq(|words|, i requires 0 <= i < |words| => QuestionToEquals(words[i]))
  }

  lemma FullQueryShape(path: string, append: string, proplist: string, query: seq<string>)
    ensures var f := FullQueryOf(path, append, proplist, query);
      && |f| == 1 + (if proplist != "" then 1 else 0) + |query|
      && (IsPrint(path + append) ==> f == Assemble(path, append, proplist, query))
      && (!IsPrint(path + append) ==> forall i :: 0 <= i < |f| ==> |f[i]| == 0 || f[i][0] != '?')
      && (!IsPrint(path + append) ==> forall i :: 0 <= i < |query| ==> f[|f| - |query| + i] == QuestionToEquals(query[i]))
  {
  }

  // ---- parameter words (makeQuery) ----

  /** `replace(/_/, "-")`: only the first underscore. */
  function ReplaceFirstUnderscore(s: string): (r: string)
    ensures |r| == |s|
    ensures '_' !in s ==> r == s
  {
    if |s| == 0 then ""
    else if s[0] == '_' then "-" + s[1..]
    else
      assert s == [s[0]] + s[1..];
      [s[0]] + ReplaceFirstUnderscore(s[1..])
  }

  /** The key of a parameter, with `id`, `next` and `dead` renamed to the router's `.id`, `.nextid`, `.dead`. */
  function KeyName(key: string): string {
    var k := ReplaceFirstUnderscore(key);
    if k == "id" then ".id" else if k == "next" then ".nextid" else if k == "dead" then ".dead" else k
  }

  /** `stringfySearchQuery`: a value whose `typeof` is `object` (an object or null) becomes its JSON text;
      in an array, each such element does; other values are kept. */
  function Stringified(v: Value): (r: Value)
    ensures !r.Obj? && !r.Null? && (r.Arr? <==> v.Arr?)
  {
    if v.Arr? then Arr(StringifiedItems(v.items))
    else if IsObject(v) then Str(Encode(v))
    else v
  }

  function StringifiedItems(items: seq<Value>): (r: seq<Value>)
    ensures |r| == |items|
  {
    if |items| == 0 then []
    else
      var v := items[|items| - 1];
      StringifiedItems(items[..|items| - 1]) + [if IsObject(v) then Str(Encode(v)) else v]
  }

  /** Whether `stringfySearchQuery` sets the translation flag for this value. */
  predicate NeedsTranslation(v: Value) {
    if v.Arr? then exists i :: 0 <= i < |v.items| && IsObject(v.items[i]) else IsObject(v)
  }

  /** A `placeAfter` parameter whose value is neither a boolean, null nor an object: it is remembered
      and sent as `place-before`. */
  predicate SetsPlaceAfter(key: string, v: Value) {
    !v.Bool? && !IsObject(v) && KeyName(key) == "placeAfter"
  }

  /** The text of a parameter value: booleans as `yes`/`no`, null as nothing, objects stringified. */
  function ValueText(v: Value): string {
    match v
    case Bool(b) => if b then "yes" else "no"
    case Null => ""
    case Arr(_) => JsText(Stringified(v))
    case Obj(_) => JsText(Stringified(v))
    case _ => JsText(v)
  }

  function Prefix(addQuestionMark: bool): char {
    if addQuestionMark then '?' else '='
  }

  /** The word `makeQuery` emits for one parameter. */
  function ParamWord(addQuestionMark: bool, key: string, v: Value): string {
    var name := if SetsPlaceAfter(key, v) then "placeBefore" else KeyName(key);
    ToDashedCase([Prefix(addQuestionMark)] + name) + "=" + ValueText(v)
  }

  /** One word per parameter, in order. */
  function ParamWords(params: Params, addQuestionMark: bool): (words: Sentence)
    ensures |words| == |params|
  {
    if |params| == 0 then []
    else
      var last := params[|params| - 1];
      ParamWords(params[..|params| - 1], addQuestionMark) + [ParamWord(addQuestionMark, last.0, last.1)]
  }

  /** `placeAfter` after the parameters were turned into words: the value of the last `placeAfter` parameter, if any. */
  function PlaceAfterOf(params: Params, pa: Value): Value {
    if |params| == 0 then pa
    else
      var last := params[|params| - 1];
      if SetsPlaceAfter(last.0, last.1) then last.1 else PlaceAfterOf(params[..|params| - 1], pa)
  }

  /** Whether some parameter sets the translation flag: an object or an array holding one (null is sent as an empty value). */
  predicate AnyNeedsTranslation(params: Params) {
    && |params| > 0
    && (|| AnyNeedsTranslation(params[..|params| - 1])
        || (!params[|params| - 1].1.Null? && NeedsTranslation(params[|params| - 1].1)))
  }

  lemma ParamsStep(params: Params, k: nat, pa: Value)
    requires k < |params|
    ensures PlaceAfterOf(params[..k + 1], pa)
         == if SetsPlaceAfter(params[k].0, params[k].1) then params[k].1 else PlaceAfterOf(params[..k], pa)
    ensures AnyNeedsTranslation(params[..k + 1])
         == (AnyNeedsTranslation(params[..k]) || (!params[k].1.Null? && NeedsTranslation(params[k].1)))
  {
    var p := params[..k + 1];
    assert p[..k] == params[..k];
    assert forall i :: 0 <= i < k ==> p[i] == params[i];
    assert p[k] == params[k];
  }

  /** The flag is raised exactly when some non-null parameter is an object or an array holding one. */
  lemma {:induction false} AnyNeedsTranslationIff(params: Params)
    ensures AnyNeedsTranslation(params) <==> exists i :: 0 <= i < |params| && !params[i].1.Null? && NeedsTranslation(params[i].1)
  {
    if |params| > 0 {
      var init := params[..|params| - 1];
      AnyNeedsTranslationIff(init);
      assert forall i :: 0 <= i < |init| ==> init[i] == params[i];
    }
  }

  /** Scalar parameters, such as those of a decoded reference, never raise the flag. */
  lemma ScalarsNeedNoTranslation(params: Params)
    requires forall i :: 0 <= i < |params| ==> Scalar(params[i].1)
    ensures !AnyNeedsTranslation(params)
  {
    AnyNeedsTranslationIff(params);
  }

  lemma ParamWordsStep(params: Params, k: nat, addQuestionMark: bool)
    requires k < |params|
    ensures ParamWords(params[..k + 1], addQuestionMark)
         == ParamWords(params[..k], addQuestionMark) + [ParamWord(addQuestionMark, params[k].0, params[k].1)]
  {
    assert params[..k + 1][..k] == params[..k];
  }

  /** Each word starts with the chosen prefix and carries the value after the key and `=`. */
  lemma ParamWordShape(addQuestionMark: bool, key: string, v: Value)
    ensures var w := ParamWord(addQuestionMark, key, v);
      |w| > 0 && w[0] == Prefix(addQuestionMark) && EndsWith(w, "=" + ValueText(v))
  {
    var name := if SetsPlaceAfter(key, v) then "placeBefore" else KeyName(key);
    var d := ToDashedCase([Prefix(addQuestionMark)] + name);
    var t := "=" + ValueText(v);
    DashedHead(Prefix(addQuestionMark), name);
    AppendAssoc(d, "=", ValueText(v));
    EndsWithAppend(d, t);
  }

  lemma RenamedKeys()
    ensures KeyName("id") == ".id" && KeyName("next") == ".nextid" && KeyName("dead") == ".dead"
    ensures KeyName("placeAfter") == "placeAfter"
  {
    assert '_' !in "id" && '_' !in "next" && '_' !in "dead" && '_' !in "placeAfter";
  }

  lemma RenamedWord(addQuestionMark: bool, key: string, name: string, v: Value)
    requires KeyName(key) == name && name != "placeAfter"
    requires ToDashedCase([Prefix(addQuestionMark)] + name) == [Prefix(addQuestionMark)] + name
    ensures ParamWord(addQuestionMark, key, v) == [Prefix(addQuestionMark)] + name + "=" + ValueText(v)
  {
    assert !SetsPlaceAfter(key, v);
  }

  /** `id`, `next` and `dead` reach the router as `.id`, `.nextid` and `.dead`. */
  lemma KeyRenames(addQuestionMark: bool, v: Value)
    ensures ParamWord(addQuestionMark, "id", v) == [Prefix(addQuestionMark)] + ".id" + "=" + ValueText(v)
    ensures ParamWord(addQuestionMark, "next", v) == [Prefix(addQuestionMark)] + ".nextid" + "=" + ValueText(v)
    ensures ParamWord(addQuestionMark, "dead", v) == [Prefix(addQuestionMark)] + ".dead" + "=" + ValueText(v)
  {
    RenamedKeys();
    DashedDotNames(Prefix(addQuestionMark));
    RenamedWord(addQuestionMark, "id", ".id", v);
    RenamedWord(addQuestionMark, "next", ".nextid", v);
    RenamedWord(addQuestionMark, "dead", ".dead", v);
  }

  /** A scalar `placeAfter` parameter is sent as `place-before`. */
  lemma PlaceAfterSentAsPlaceBefore(addQuestionMark: bool, v: Value)
    requires !v.Bool? && !IsObject(v)
    ensures ParamWord(addQuestionMark, "placeAfter", v) == [Prefix(addQuestionMark)] + "place-before" + "=" + JsText(v)
  {
    RenamedKeys();
    DashedPlaceBefore(Prefix(addQuestionMark));
  }

  /** Booleans are sent as `yes`/`no` and null as an empty value. */
  lemma ValueTexts(b: bool)
    ensures ValueText(Bool(b)) == (if b then "yes" else "no")
    ensures ValueText(Null) == ""
  {
  }

  // ---- reply normalisation (treatMikrotikProperties) ----

  /** A reply value after its cast. */
  datatype Field =
    | Text(s: string)
    | Flag(b: bool)
    | Number(n: nat)
    /** `digits.digits`, which JavaScript reads with `parseFloat`; the text is kept. */
    | Decimal(text: string)

  type Item = map<string, Field>

  /** `\d+\.\d+`. */
  predicate IsDecimalText(s: string) {
    exists i :: 0 < i < |s| - 1 && s[i] == '.' && AllDigits(s[..i]) && AllDigits(s[i + 1..])
  }

  /** The cast of a reply value: `true`/`false` become booleans, digit strings numbers, the rest stays text. */
  function Cast(s: string): (f: Field)
    ensures f.Flag? <==> s == "true" || s == "false"
    ensures f.Flag? ==> f.b == (s == "true")
    ensures f.Number? <==> |s| > 0 && AllDigits(s)
    ensures f.Number? ==> f.n == DigitsValue(s)
    ensures f.Decimal? <==> IsDecimalText(s)
    ensures f.Text? ==> f.s == s
  {
    if s == "true" then
      assert !IsDigit(s[0]) && !IsDecimalText(s) by { NoDot(s); }
      Flag(true)
    else if s == "false" then
      assert !IsDigit(s[0]) && !IsDecimalText(s) by { NoDot(s); }
      Flag(false)
    else if |s| > 0 && AllDigits(s) then
      Number(DigitsValue(s))
    else if IsDecimalText(s) then Decimal(s)
    else Text(s)
  }

  lemma NoDot(s: string)
    requires s == "true" || s == "false"
    ensures !IsDecimalText(s)
  {
    assert forall i :: 0 <= i < |s| ==> s[i] != '.';
  }

  function StripLeadingDot(s: string): string {
    if |s| > 0 && s[0] == '.' then s[1..] else s
  }

  /** The name a reply property gets: snake_case or camelCase, then one leading `.` dropped. */
  function ReplyKey(key: string, snakeCase: bool): string {
    StripLeadingDot(if snakeCase then DashedToSnakeCase(key) else DashedToCamelCase(key))
  }

  /** One normalised reply item: `$$path` first, then every raw property in order, a later one
      overwriting an earlier one that normalised to the same name. */
  function TreatItem(path: string, raw: RawItem, snakeCase: bool): Item {
    if |raw| == 0 then map["$$path" := Text(path)]
    else TreatItem(path, raw[..|raw| - 1], snakeCase)[ReplyKey(raw[|raw| - 1].0, snakeCase) := Cast(raw[|raw| - 1].1)]
  }

  lemma TreatItemStep(path: string, raw: RawItem, snakeCase: bool, k: nat)
    requires k < |raw|
    ensures TreatItem(path, raw[..k + 1], snakeCase) == TreatItem(path, raw[..k], snakeCase)[ReplyKey(raw[k].0, snakeCase) := Cast(raw[k].1)]
  {
    assert raw[..k + 1][..k] == raw[..k];
  }

  /** The item holds `$$path` and the normalised name of every raw property. */
  lemma {:induction false} TreatItemHasKeys(path: string, raw: RawItem, snakeCase: bool)
    ensures "$$path" in TreatItem(path, raw, snakeCase)
    ensures forall i :: 0 <= i < |raw| ==> ReplyKey(raw[i].0, snakeCase) in TreatItem(path, raw, snakeCase)
  {
    if |raw| > 0 {
      var init := raw[..|raw| - 1];
      TreatItemHasKeys(path, init, snakeCase);
      assert forall i :: 0 <= i < |init| ==> init[i] == raw[i];
    }
  }

  /** The item holds no other name. */
  lemma {:induction false} TreatItemOnlyKeys(path: string, raw: RawItem, snakeCase: bool)
    ensures forall k :: k in TreatItem(path, raw, snakeCase) ==>
      k == "$$path" || exists i :: 0 <= i < |raw| && ReplyKey(raw[i].0, snakeCase) == k
  {
    if |raw| > 0 {
      var init := raw[..|raw| - 1];
      TreatItemOnlyKeys(path, init, snakeCase);
      assert forall i :: 0 <= i < |init| ==> init[i] == raw[i];
    }
  }

  /** A raw property holds its cast value in the normalised item unless a later property takes its name. */
  lemma {:induction false} TreatItemValue(path: string, raw: RawItem, snakeCase: bool, i: nat)
    requires i < |raw|
    requires forall j :: i < j < |raw| ==> ReplyKey(raw[j].0, snakeCase) != ReplyKey(raw[i].0, snakeCase)
    ensures var item := TreatItem(path, raw, snakeCase);
      ReplyKey(raw[i].0, snakeCase) in item && item[ReplyKey(raw[i].0, snakeCase)] == Cast(raw[i].1)
  {
    if i < |raw| - 1 {
      var init := raw[..|raw| - 1];
      assert init[i] == raw[i];
      forall j | i < j < |init|
        ensures ReplyKey(init[j].0, snakeCase) != ReplyKey(init[i].0, snakeCase)
      {
        assert init[j] == raw[j];
      }
      TreatItemValue(path, init, snakeCase, i);
    }
  }

  /** `$$path` holds the menu path unless a raw property normalises to that name. */
  lemma {:induction false} TreatItemPath(path: string, raw: RawItem, snakeCase: bool)
    requires forall j :: 0 <= j < |raw| ==> ReplyKey(raw[j].0, snakeCase) != "$$path"
    ensures var item := TreatItem(path, raw, snakeCase); "$$path" in item && item["$$path"] == Text(path)
  {
    if |raw| > 0 {
      var init := raw[..|raw| - 1];
      forall j | 0 <= j < |init|
        ensures ReplyKey(init[j].0, snakeCase) != "$$path"
      {
        assert init[j] == raw[j];
      }
      TreatItemPath(path, init, snakeCase);
    }
  }

  /** The router's `.id` reaches the caller as `id`. */
  lemma ReplyKeyOfId(snakeCase: bool)
    ensures ReplyKey(".id", snakeCase) == "id"
    ensures ReplyKey(".nextid", snakeCase) == "nextid"
  {
    ReplyKeyUnchanged(".id", snakeCase);
    ReplyKeyUnchanged(".nextid", snakeCase);
  }

  /** A name without `-` loses only its leading `.`. */
  lemma ReplyKeyUnchanged(key: string, snakeCase: bool)
    requires '-' !in key && |key| > 0 && key[0] == '.'
    ensures ReplyKey(key, snakeCase) == key[1..]
  {
    CamelCaseIdentity(key);
    assert DashedToSnakeCase(key) == key;
  }

  function TreatAll(path: string, raws: seq<RawItem>, snakeCase: bool): (items: seq<Item>)
    ensures |items| == |raws|
  {
    if |raws| == 0 then [] else TreatAll(path, raws[..|raws| - 1], snakeCase) + [TreatItem(path, raws[|raws| - 1], snakeCase)]
  }

  lemma TreatAllStep(path: string, raws: seq<RawItem>, snakeCase: bool, k: nat)
    requires k < |raws|
    ensures TreatAll(path, raws[..k + 1], snakeCase) == TreatAll(path, raws[..k], snakeCase) + [TreatItem(path, raws[k], snakeCase)]
  {
    assert raws[..k + 1][..k] == raws[..k];
  }

  /** Every reply item is normalised on its own, in place. */
  lemma {:induction false} TreatAllAt(path: string, raws: seq<RawItem>, snakeCase: bool, i: nat)
    requires i < |raws|
    ensures TreatAll(path, raws, snakeCase)[i] == TreatItem(path, raws[i], snakeCase)
  {
    if i < |raws| - 1 {
      TreatAllAt(path, raws[..|raws| - 1], snakeCase, i);
    }
  }

  /** The value of a raw property: the last pair with that name. */
  function RawGet(raw: RawItem, key: string): Option<string> {
    if |raw| == 0 then None
    else if raw[|raw| - 1].0 == key then Some(raw[|raw| - 1].1)
    else RawGet(raw[..|raw| - 1], key)
  }

  /** No value exactly when no pair has that name; otherwise the value of a pair with that name that no
      later pair with the name follows. */
  lemma {:induction false} RawGetIsLast(raw: RawItem, key: string)
    ensures RawGet(raw, key).None? <==> forall i :: 0 <= i < |raw| ==> raw[i].0 != key
    ensures RawGet(raw, key).Some? ==>
      exists i :: 0 <= i < |raw| && raw[i] == (key, RawGet(raw, key).value) && forall j :: i < j < |raw| ==> raw[j].0 != key
  {
    if |raw| > 0 && raw[|raw| - 1].0 != key {
      var init := raw[..|raw| - 1];
      RawGetIsLast(init, key);
      assert forall i :: 0 <= i < |init| ==> init[i] == raw[i];
    }
  }

  /** `String(v)` of a reply value as it comes back from the cast. */
  function FieldText(f: Field): string {
    match f
    case Text(s) => s
    case Flag(b) => BoolText(b)
    case Number(n) => NatText(n)
    case Decimal(t) => t
  }

  predicate FieldTruthy(f: Field) {
    match f
    case Text(s) => s != ""
    case Flag(b) => b
    case Number(n) => n != 0
    case Decimal(t) => exists i :: 0 <= i < |t| && '1' <= t[i] <= '9'
  }

  /** A reply value passed back into a parameter. */
  function FieldValue(f: Field): (v: Value)
    ensures !IsObject(v) && Truthy(v) == FieldTruthy(f)
  {
    match f
    case Text(s) => Str(s)
    case Flag(b) => Bool(b)
    case Number(n) => Num(n)
    case Decimal(t) => if FieldTruthy(f) then Str(t) else Num(0)
  }

  // ---- references (translateQueryIntoId) ----

  /** A word without its leading `?`, then without a leading `=`. */
  function Unprefixed(w: string): string {
    var a := if |w| > 0 && w[0] == '?' then w[1..] else w;
    if |a| > 0 && a[0] == '=' then a[1..] else a
  }

  predicate MentionsRef(s: string) {
    Contains(s, ".id=") || Contains(s, "place-before=") || Contains(s, "place-after=") || Contains(s, "numbers=")
  }

  /** The characters `.` does not match in a JavaScript regular expression. */
  predicate LineTerminator(ch: char) {
    ch == '\n' || ch == '\r' || ch as int == 0x2028 || ch as int == 0x2029
  }

  /** `/\{.*\}/.test(s)`, scanning left to right: `open` says a `{` was seen since the last line terminator. */
  function BracedFrom(s: string, open: bool): bool {
    if |s| == 0 then false
    else if open && s[0] == '}' then true
    else BracedFrom(s[1..], if LineTerminator(s[0]) then false else open || s[0] == '{')
  }

  predicate Braced(s: string) {
    BracedFrom(s, false)
  }

  /** A word that names an item by an object: it mentions an id-like key and holds `{…}` on one line. */
  predicate IsRefWord(w: string) {
    MentionsRef(Unprefixed(w)) && Braced(Unprefixed(w))
  }

  /** The key of a reference word: the text before its first `=`. */
  function RefKey(w: string): string {
    BeforeFirst(Unprefixed(w), '=')
  }

  /** The JSON text of a reference word: the text after its last `=`. */
  function RefText(w: string): string {
    AfterLast(Unprefixed(w), '=')
  }

  /** The lookup sent for a reference: the ids of the items matching every field of the object. */
  function LookupSentence(path: string, fields: Params): Sentence {
    [path + "/print", "=.proplist=.id"] + ParamWords(fields, true)
  }

  /** The word a resolved reference becomes. */
  function ResolvedWord(key: string, id: Option<string>): string {
    "=" + key + "=" + (if id.Some? then id.value else "undefined")
  }

  /** A lookup that was sent: the index of the reference word and its key. */
  datatype Consult = Consult(index: nat, key: string, fields: Params)

  /** The lookups the reference words of `query[..k]` call for, in word order, and the text of the first
      reference that does not decode (scanning stops there, as `JSON.parse` throws). */
  datatype Scan = Scan(consults: seq<Consult>, failed: Option<string>)

  function ScanRefs(query: Sentence, k: nat): Scan
    requires k <= |query|
  {
    if k == 0 then Scan([], None)
    else ScanWord(ScanRefs(query, k - 1), k - 1, query[k - 1])
  }

  /** A lookup for the reference word at its index: that word's key and its decoded object. */
  predicate ConsultOf(query: Sentence, c: Consult) {
    && c.index < |query| && IsRefWord(query[c.index])
    && c.key == RefKey(query[c.index])
    && ParseObject(RefText(query[c.index])) == Some(c.fields)
  }

  /** The object of a lookup has distinct keys and scalar values. */
  lemma ConsultFlat(query: Sentence, c: Consult)
    requires ConsultOf(query, c)
    ensures Flat(c.fields)
  {
    ParseObjectFlat(RefText(query[c.index]));
  }

  lemma ScanRefsNext(query: Sentence, k: nat)
    requires k < |query|
    ensures ScanRefs(query, k + 1) == ScanWord(ScanRefs(query, k), k, query[k])
  {
  }

  /** One word of the scan: a reference word is looked up unless an earlier one failed to decode. */
  function ScanWord(s: Scan, i: nat, w: string): (r: Scan)
    ensures r.failed.Some? ==> r.consults == s.consults
    ensures s.failed.Some? ==> r == s
  {
    if s.failed.Some? || !IsRefWord(w) then s
    else match ParseObject(RefText(w))
      case None => Scan(s.consults, Some(RefText(w)))
      case Some(fs) => Scan(s.consults + [Consult(i, RefKey(w), fs)], None)
  }

  /** The scan either keeps its lookups or adds the lookup for this word. */
  lemma ScanWordConsults(s: Scan, i: nat, w: string)
    ensures var r := ScanWord(s, i, w);
      || r.consults == s.consults
      || (&& IsRefWord(w) && ParseObject(RefText(w)).Some?
          && r.consults == s.consults + [Consult(i, RefKey(w), ParseObject(RefText(w)).value)])
  {
  }

  /** Every lookup is for a word before `k`. */
  lemma {:induction false} ScanRefsBelow(query: Sentence, k: nat)
    requires k <= |query|
    ensures forall j :: 0 <= j < |ScanRefs(query, k).consults| ==> ScanRefs(query, k).consults[j].index < k
  {
    if k > 0 {
      ScanRefsBelow(query, k - 1);
      ScanWordConsults(ScanRefs(query, k - 1), k - 1, query[k - 1]);
    }
  }

  /** The lookups come in increasing word order, all before `k`. */
  lemma {:induction false} ScanRefsOrdered(query: Sentence, k: nat)
    requires k <= |query|
    ensures forall j :: 0 <= j < |ScanRefs(query, k).consults| ==> ScanRefs(query, k).consults[j].index < k
    ensures forall j, j' :: 0 <= j < j' < |ScanRefs(query, k).consults| ==>
      ScanRefs(query, k).consults[j].index < ScanRefs(query, k).consults[j'].index
  {
    if k > 0 {
      ScanRefsOrdered(query, k - 1);
      var s := ScanRefs(query, k - 1);
      ScanWordConsults(s, k - 1, query[k - 1]);
      var cs := ScanRefs(query, k).consults;
      forall j | 0 <= j < |cs|
        ensures cs[j].index < k && (j < |s.consults| ==> cs[j] == s.consults[j])
      {
        if j < |s.consults| {
          assert cs[j] == s.consults[j];
        }
      }
    }
  }

  /** Every lookup comes from a reference word: its key and its decoded object. */
  lemma {:induction false} ScanRefsSound(query: Sentence, k: nat, j: nat)
    requires k <= |query|
    requires j < |ScanRefs(query, k).consults|
    ensures ConsultOf(query, ScanRefs(query, k).consults[j])
  {
    var s := ScanRefs(query, k - 1);
    var w := query[k - 1];
    ScanWordConsults(s, k - 1, w);
    if j < |s.consults| {
      ScanRefsSound(query, k - 1, j);
    }
  }

  /** When no reference fails to decode, every reference word before `k` is looked up. */
  lemma {:induction false} ScanRefsComplete(query: Sentence, k: nat)
    requires k <= |query|
    ensures ScanRefs(query, k).failed.None? ==> forall i :: 0 <= i < k && IsRefWord(query[i]) ==>
      exists j :: 0 <= j < |ScanRefs(query, k).consults| && ScanRefs(query, k).consults[j].index == i
  {
    if k > 0 {
      ScanRefsComplete(query, k - 1);
      var s := ScanRefs(query, k - 1);
      var s' := ScanRefs(query, k);
      ScanWordConsults(s, k - 1, query[k - 1]);
      if s'.failed.None? {
        forall i | 0 <= i < k && IsRefWord(query[i])
          ensures exists j :: 0 <= j < |ScanRefs(query, k).consults| && ScanRefs(query, k).consults[j].index == i
        {
          if i == k - 1 {
            assert s'.consults[|s.consults|].index == i;
          } else {
            var j :| 0 <= j < |s.consults| && s.consults[j].index == i;
            assert s'.consults[j] == s.consults[j];
          }
        }
        assert ScanRefs(query, k).failed.None?;
      }
    }
  }

  /** A failure is final: scanning further words changes nothing. */
  lemma {:induction false} ScanRefsStops(query: Sentence, k: nat, m: nat)
    requires k <= m <= |query|
    requires ScanRefs(query, k).failed.Some?
    ensures ScanRefs(query, m) == ScanRefs(query, k)
    decreases m - k
  {
    if k < m {
      ScanRefsStops(query, k + 1, m);
    }
  }

  datatype Resolution =
    | Resolved(query: Sentence, placeAfter: Value)
    /** A lookup found nothing; `placeAfter` as the earlier lookups left it. */
    | Unresolved(key: string, placeAfter: Value)

  /** The lookup replies taken in order: each reference word becomes `=key=<.id of the first reply item>`,
      `place-after` becoming `place-before` and setting `placeAfter`; an empty reply stops with its key. */
  function Resolve(query: Sentence, consults: seq<Consult>, replies: seq<seq<RawItem>>, pa: Value): (r: Resolution)
    requires |consults| == |replies|
    requires forall j :: 0 <= j < |consults| ==> consults[j].index < |query|
    ensures r.Resolved? ==> |r.query| == |query|
    decreases |consults|
  {
    if |consults| == 0 then Resolved(query, pa)
    else
      var c := consults[0];
      if |replies[0]| == 0 then Unresolved(c.key, pa)
      else
        var id := RawGet(replies[0][0], ".id");
        var after := c.key == "place-after";
        var key := if after then "place-before" else c.key;
        var pa' := if after then (if id.Some? then Str(id.value) else Null) else pa;
        Resolve(query[c.index := ResolvedWord(key, id)], consults[1..], replies[1..], pa')
  }

  /** Resolution rewrites exactly the consulted words, into `=key=id` form, and never leaves a `place-after` key. */
  lemma {:induction false} ResolveRewrites(query: Sentence, consults: seq<Consult>, replies: seq<seq<RawItem>>, pa: Value)
    requires |consults| == |replies|
    requires forall j :: 0 <= j < |consults| ==> consults[j].index < |query|
    ensures var r := Resolve(query, consults, replies, pa);
      r.Resolved? ==>
        && (forall i :: 0 <= i < |query| && (forall j :: 0 <= j < |consults| ==> consults[j].index != i) ==> r.query[i] == query[i])
        && (forall j :: 0 <= j < |consults| ==> |replies[j]| > 0)
    ensures var r := Resolve(query, consults, replies, pa);
      r.Unresolved? <==> exists j :: 0 <= j < |consults| && |replies[j]| == 0
    decreases |consults|
  {
    if |consults| > 0 && |replies[0]| > 0 {
      var c := consults[0];
      var id := RawGet(replies[0][0], ".id");
      var after := c.key == "place-after";
      var key := if after then "place-before" else c.key;
      var pa' := if after then (if id.Some? then Str(id.value) else Null) else pa;
      var q' := query[c.index := ResolvedWord(key, id)];
      ResolveRewrites(q', consults[1..], replies[1..], pa');
      assert forall j :: 1 <= j < |consults| ==> consults[1..][j - 1] == consults[j] && replies[1..][j - 1] == replies[j];
    }
  }

  /** A consulted word whose lookup is not followed by another lookup of the same word ends as `=key=id`,
      with `place-after` sent as `place-before`. */
  lemma {:induction false} ResolvedWordAt(query: Sentence, consults: seq<Consult>, replies: seq<seq<RawItem>>, pa: Value, j: nat)
    requires |consults| == |replies| && j < |consults|
    requires forall k :: 0 <= k < |consults| ==> consults[k].index < |query|
    requires forall k :: j < k < |consults| ==> consults[k].index != consults[j].index
    requires Resolve(query, consults, replies, pa).Resolved?
    ensures |replies[j]| > 0
    ensures Resolve(query, consults, replies, pa).query[consults[j].index]
         == ResolvedWord(if consults[j].key == "place-after" then "place-before" else consults[j].key, RawGet(replies[j][0], ".id"))
    decreases |consults|
  {
    var c := consults[0];
    var id := RawGet(replies[0][0], ".id");
    var after := c.key == "place-after";
    var key := if after then "place-before" else c.key;
    var pa' := if after then (if id.Some? then Str(id.value) else Null) else pa;
    var q' := query[c.index := ResolvedWord(key, id)];
    if j == 0 {
      ResolveRewrites(q', consults[1..], replies[1..], pa');
      forall k | 0 <= k < |consults[1..]|
        ensures consults[1..][k].index != c.index
      {
        assert consults[1..][k] == consults[k + 1];
      }
    } else {
      ResolvedWordAt(q', consults[1..], replies[1..], pa', j - 1);
    }
  }

  // ---- references written by makeQuery are found and decoded ----

  /** Keys and string values free of `=` and of line terminators. */
  predicate PlainText(s: string) {
    '=' !in s && forall i :: 0 <= i < |s| ==> !LineTerminator(s[i])
  }

  predicate Plain(fs: Params) {
    forall i :: 0 <= i < |fs| ==> PlainText(fs[i].0) && (fs[i].1.Str? ==> PlainText(fs[i].1.s))
  }

  lemma {:induction false} EscapePlain(s: string)
    requires PlainText(s)
    ensures PlainText(Escape(s))
  {
    if |s| > 0 {
      EscapePlain(s[1..]);
      var e := EscapeChar(s[0]);
      assert PlainText(e);
      assert Escape(s) == e + Escape(s[1..]);
    }
  }

  lemma PlainConcat(a: string, b: string)
    requires PlainText(a) && PlainText(b)
    ensures PlainText(a + b)
  {
    assert forall i :: 0 <= i < |a + b| ==> (a + b)[i] == if i < |a| then a[i] else b[i - |a|];
  }

  lemma DigitsPlain(s: string)
    requires AllDigits(s)
    ensures PlainText(s) && PlainText("-" + s)
  {
    assert forall i :: 0 <= i < |"-" + s| ==> ("-" + s)[i] == '-' || IsDigit(("-" + s)[i]);
  }

  lemma ScalarPlain(v: Value)
    requires Scalar(v) && (v.Str? ==> PlainText(v.s))
    ensures PlainText(Encode(v))
  {
    match v
    case Str(t) =>
      EscapePlain(t);
      PlainConcat("\"", Escape(t));
      PlainConcat("\"" + Escape(t), "\"");
    case Num(n) =>
      DigitsPlain(NatText(if n < 0 then -n else n));
    case Bool(b) =>
    case Null =>
  }

  lemma MemberPlain(k: string, v: Value)
    requires PlainText(k) && Scalar(v) && (v.Str? ==> PlainText(v.s))
    ensures PlainText(Member(k, v))
  {
    ScalarPlain(v);
    ScalarPlain(Str(k));
    PlainConcat(Quote(k), ":");
    PlainConcat(Quote(k) + ":", Encode(v));
  }

  lemma {:induction false} MembersPlain(fs: Params)
    requires forall i :: 0 <= i < |fs| ==> Scalar(fs[i].1)
    requires Plain(fs)
    ensures PlainText(Members(fs))
  {
    if |fs| > 0 {
      MemberPlain(fs[0].0, fs[0].1);
      if |fs| > 1 {
        var t := fs[1..];
        assert forall i :: 0 <= i < |t| ==> t[i] == fs[i + 1];
        MembersPlain(t);
        PlainConcat(Member(fs[0].0, fs[0].1), ",");
        PlainConcat(Member(fs[0].0, fs[0].1) + ",", Members(t));
      }
    }
  }

  lemma {:induction false} BracedTail(s: string, open: bool)
    requires |s| > 0 && s[|s| - 1] == '}' && (open || s[0] == '{')
    requires forall i :: 0 <= i < |s| ==> !LineTerminator(s[i])
    ensures BracedFrom(s, open)
    decreases |s|
  {
    if !(open && s[0] == '}') {
      BracedTail(s[1..], true);
    }
  }

  lemma {:induction false} BracedAfter(p: string, t: string, open: bool)
    requires |t| > 0 && t[0] == '{' && t[|t| - 1] == '}'
    requires forall i :: 0 <= i < |t| ==> !LineTerminator(t[i])
    ensures BracedFrom(p + t, open)
    decreases |p|
  {
    if |p| == 0 {
      assert p + t == t;
      BracedTail(t, open);
    } else if !(open && p[0] == '}') {
      assert (p + t)[1..] == p[1..] + t;
      BracedAfter(p[1..], t, if LineTerminator(p[0]) then false else open || p[0] == '{');
    }
  }

  /** A reference written as `name=<JSON of a flat plain object>` is recognised, keyed by `name`,
      and its object is read back unchanged. */
  /** The JSON text of a flat plain object is braced, holds no `=` and no line terminator. */
  lemma EncodedObjectPlain(fs: Params)
    requires Flat(fs) && Plain(fs)
    ensures var json := Encode(Obj(fs));
      |json| >= 2 && json[0] == '{' && json[|json| - 1] == '}' && PlainText(json)
  {
    EncodeObj(fs);
    MembersPlain(fs);
    PlainConcat("{", Members(fs));
    PlainConcat("{" + Members(fs), "}");
  }

  lemma UnprefixedWord(prefix: char, s: string)
    requires prefix == '?' || prefix == '='
    requires |s| > 0 && s[0] != '='
    ensures Unprefixed([prefix] + s) == s
  {
    assert ([prefix] + s)[1..] == s;
  }

  lemma RefWordParts(name: string, json: string)
    requires '=' !in name && PlainText(json)
    ensures var s := name + "=" + json;
      Contains(s, name + "=") && RefKeyText(s) == (name, json)
  {
    var s := name + "=" + json;
    assert StartsWith(s, name + "=");
    assert s == name + ['='] + json;
    BeforeFirstOfHead(name, '=', json);
    AfterLastOfTail(name, '=', json);
  }

  function RefKeyText(s: string): (string, string) {
    (BeforeFirst(s, '='), AfterLast(s, '='))
  }

  /** A reference written as `name=<JSON of a flat plain object>` is recognised, keyed by `name`,
      and its object is read back unchanged. */
  lemma RefWordRoundTrip(prefix: char, name: string, fs: Params)
    requires prefix == '?' || prefix == '='
    requires name == ".id" || name == "numbers" || name == "place-before" || name == "place-after"
    requires Flat(fs) && Plain(fs)
    ensures var w := [prefix] + name + "=" + Encode(Obj(fs));
      IsRefWord(w) && RefKey(w) == name && ParseObject(RefText(w)) == Some(fs)
  {
    var json := Encode(Obj(fs));
    var s := name + "=" + json;
    EncodedObjectPlain(fs);
    assert [prefix] + name + "=" + json == [prefix] + s;
    UnprefixedWord(prefix, s);
    RefWordParts(name, json);
    MentionsOwnName(name, s);
    BracedAfter(name + "=", json, false);
    ParseEncodedObject(fs);
  }

  /** A text holding `name=` for one of the id-like names mentions a reference. */
  lemma MentionsOwnName(name: string, s: string)
    requires name == ".id" || name == "numbers" || name == "place-before" || name == "place-after"
    requires Contains(s, name + "=")
    ensures MentionsRef(s)
  {
    if name == ".id" {
      assert name + "=" == ".id=";
    } else if name == "numbers" {
      assert name + "=" == "numbers=";
    } else if name == "place-before" {
      assert name + "=" == "place-before=";
    } else {
      assert name + "=" == "place-after=";
    }
  }
}
