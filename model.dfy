/**
 * `RosApiModel`: one printed item turned into an object. The item's
 * properties are copied onto the model ("dissolved"); the self-targeting
 * verbs act on the item's own id through the CRUD builder and then swap the
 * copied properties for those of the item read back. The source class
 * extends the CRUD builder; here a `Model` owns one `Crud` builder.
 */
module RosApiModel {
  import opened Wrappers
  import opened Json
  import opened Utils
  import opened Sentences
  import opened RawApi
  import opened RosApiCrud

  /** The model's properties once `refreshData(response)` ran: those copied from the old item are
      deleted, then every property of the response is copied. */
  function Refreshed(props: map<string, Field>, oldItem: Item, response: Item): map<string, Field> {
    (props - oldItem.Keys) + response
  }

  /** After a refresh every property of the response is present with its value, a property only the
      old item had is gone, and any other property is kept as it was. */
  lemma RefreshedProps(props: map<string, Field>, oldItem: Item, response: Item)
    ensures var p := Refreshed(props, oldItem, response);
      && (forall k :: k in response ==> k in p && p[k] == response[k])
      && (forall k :: k in oldItem && k !in response ==> k !in p)
      && (forall k :: k !in oldItem && k !in response ==> (k in p <==> k in props) && (k in p ==> p[k] == props[k]))
  {
  }

  /** The id the self-targeting verbs pass: the item's `id`, or nothing (falsy) when it has none. */
  function OwnId(item: Item): (v: Value)
    ensures "id" !in item ==> !Truthy(v)
    ensures "id" in item ==> !IsObject(v) && Truthy(v) == FieldTruthy(item["id"])
  {
    if "id" in item then FieldValue(item["id"]) else Null
  }

  /** The properties of the model's item: none when it is `undefined`, as a `for…in` over it visits
      nothing. */
  function ItemOf(item: Option<Item>): Item
  {
    if item.Some? then item.value else map[]
  }

  class Model {
    const crud: Crud
    /** The item the model was made from or last refreshed with; `None` once a read-back found
        nothing and `refreshData` stored `undefined`. */
    var originalItem: Option<Item>
    /** The properties copied onto the model. */
    var props: map<string, Field>

    predicate Valid()
      reads crud
    {
      crud.Valid()
    }

    /** `new RosApiModel(rosApi, item, snakeCase)`: the menu is the item's `$$path`, and its properties
        are copied onto the model. */
    constructor (api: Api, item: Item, snakeCase: bool)
      requires "$$path" in item && item["$$path"].Text?
      ensures crud.api == api && crud.snakeCase == snakeCase && crud.pathVal == NormalizePath(item["$$path"].s)
      ensures crud.queryVal == [] && crud.proplistVal == "" && !crud.needsObjectTranslation && crud.placeAfter == Null
      ensures originalItem == Some(item) && props == item
      ensures Valid()
    {
      crud := new Crud(api, item["$$path"].s, snakeCase);
      originalItem := Some(item);
      props := map[];
      new;
      DissolveProperties();
    }

    /** `dissolveProperties()`: every property of `originalItem` copied onto the model. */
    method DissolveProperties()
      modifies this
      ensures originalItem == old(originalItem)
      ensures props == old(props) + ItemOf(originalItem)
    {
      var item := ItemOf(originalItem);
      var keys := item.Keys;
      while keys != {}
        invariant keys <= item.Keys
        invariant props == old(props) + map k | k in item.Keys - keys :: item[k]
        invariant originalItem == old(originalItem)
        decreases keys
      {
        var k :| k in keys;
        props := props[k := item[k]];
        keys := keys - {k};
      }
      assert item == map k | k in item.Keys - keys :: item[k];
    }

    /** `cleanDissolvedProperties()`: every property named by `originalItem` deleted from the model. */
    method CleanDissolvedProperties()
      modifies this
      ensures originalItem == old(originalItem)
      ensures props == old(props) - ItemOf(originalItem).Keys
    {
      var item := ItemOf(originalItem);
      var keys := item.Keys;
      while keys != {}
        invariant keys <= item.Keys
        invariant props == old(props) - (item.Keys - keys)
        invariant originalItem == old(originalItem)
        decreases keys
      {
        var k :| k in keys;
        props := props - {k};
        keys := keys - {k};
      }
    }

    /** `refreshData(response)`; `None` is the `undefined` of a read-back that found nothing. */
    method RefreshData(response: Option<Item>)
      modifies this
      ensures originalItem == response
      ensures props == Refreshed(old(props), ItemOf(old(originalItem)), ItemOf(response))
    {
      CleanDissolvedProperties();
      originalItem := response;
      DissolveProperties();
    }

    /** The `then` of a self-targeting verb: a single item (or `undefined`) read back refreshes the model. */
    method Settle(r: Result<Recovered, Error>)
      modifies this
      ensures Settled(r, old(props), old(originalItem), props, originalItem)
    {
      if r.Ok? && r.value.One? {
        RefreshData(r.value.item);
      }
    }

    /** `disable()`: `disable` of the item's own id, then the model refreshed; with no item, reading its
        `id` throws before anything is sent. */
    method Disable() returns (r: Result<Recovered, Error>)
      requires Valid()
      modifies this, crud, crud.api
      ensures Valid()
      ensures old(originalItem).None? ==>
        r == Err(NoItem) && crud.api.log == old(crud.api.log) && crud.State() == old(crud.State())
      ensures old(originalItem).Some? ==>
        var id := OwnId(old(originalItem).value);
        var v := ActedOn(crud.api.respond, crud.pathVal, crud.snakeCase, old(crud.State()), id, "disable", None);
        var t := TargetOf(crud.api.respond, crud.pathVal, crud.snakeCase, old(crud.queryVal), old(crud.proplistVal), id);
        && r == v.result && crud.api.log == old(crud.api.log) + v.log && crud.placeAfter == v.placeAfter
        && LeftBehind(r.Ok?, crud.State(), t.query, t.proplist)
      ensures Settled(r, old(props), old(originalItem), props, originalItem)
    {
      if originalItem.None? {
        return Err(NoItem);
      }
      r := crud.Disable(OwnId(originalItem.value));
      Settle(r);
    }

    /** `enable()`: `enable` of the item's own id, then the model refreshed; with no item, reading its
        `id` throws before anything is sent. */
    method Enable() returns (r: Result<Recovered, Error>)
      requires Valid()
      modifies this, crud, crud.api
      ensures Valid()
      ensures old(originalItem).None? ==>
        r == Err(NoItem) && crud.api.log == old(crud.api.log) && crud.State() == old(crud.State())
      ensures old(originalItem).Some? ==>
        var id := OwnId(old(originalItem).value);
        var v := ActedOn(crud.api.respond, crud.pathVal, crud.snakeCase, old(crud.State()), id, "enable", None);
        var t := TargetOf(crud.api.respond, crud.pathVal, crud.snakeCase, old(crud.queryVal), old(crud.proplistVal), id);
        && r == v.result && crud.api.log == old(crud.api.log) + v.log && crud.placeAfter == v.placeAfter
        && LeftBehind(r.Ok?, crud.State(), t.query, t.proplist)
      ensures Settled(r, old(props), old(originalItem), props, originalItem)
    {
      if originalItem.None? {
        return Err(NoItem);
      }
      r := crud.Enable(OwnId(originalItem.value));
      Settle(r);
    }

    /** `update(data)` (and `set`): `update` of the item's own id, then the model refreshed; with no
        item, reading its `id` throws before anything is sent. */
    method Update(data: Params) returns (r: Result<Recovered, Error>)
      requires Valid()
      modifies this, crud, crud.api
      ensures Valid()
      ensures old(originalItem).None? ==>
        r == Err(NoItem) && crud.api.log == old(crud.api.log) && crud.State() == old(crud.State())
      ensures old(originalItem).Some? ==>
        var id := OwnId(old(originalItem).value);
        var v := ActedOn(crud.api.respond, crud.pathVal, crud.snakeCase, old(crud.State()), id, "set", Some(data));
        var t := TargetOf(crud.api.respond, crud.pathVal, crud.snakeCase, old(crud.queryVal), old(crud.proplistVal), id);
        && r == v.result && crud.api.log == old(crud.api.log) + v.log && crud.placeAfter == v.placeAfter
        && LeftBehind(r.Ok?, crud.State(), t.query + DataWords(Some(data)), t.proplist)
      ensures Settled(r, old(props), old(originalItem), props, originalItem)
    {
      if originalItem.None? {
        return Err(NoItem);
      }
      r := crud.Update(data, OwnId(originalItem.value));
      Settle(r);
    }

    /** `unset(properties)`: `unset` of the item's own id, then the model refreshed; with no item,
        reading its `id` throws before anything is sent. */
    method Unset(properties: Properties) returns (r: Result<Recovered, Error>)
      requires Valid()
      modifies this, crud, crud.api
      ensures Valid()
      ensures old(originalItem).None? ==>
        r == Err(NoItem) && crud.api.log == old(crud.api.log) && crud.State() == old(crud.State())
      ensures old(originalItem).Some? ==>
        var v := Unsetted(crud.api.respond, crud.pathVal, crud.snakeCase, old(crud.State()), properties, OwnId(old(originalItem).value));
        r == v.result && crud.api.log == old(crud.api.log) + v.log && crud.placeAfter == v.placeAfter
      ensures r.Ok? && |PropertyNames(properties)| > 0 ==> crud.queryVal == [] && crud.proplistVal == "" && !crud.needsObjectTranslation
      ensures Settled(r, old(props), old(originalItem), props, originalItem)
    {
      if originalItem.None? {
        return Err(NoItem);
      }
      r := crud.Unset(properties, OwnId(originalItem.value));
      Settle(r);
    }

    /** `move(to)`: `moveEntry` of the item's own id above `to` (to the end for a null `to`), then the
        model refreshed; with no item, reading its `id` throws before anything is sent. */
    method Move(to: Value) returns (r: Result<Recovered, Error>)
      requires Valid() && !crud.needsObjectTranslation && crud.placeAfter == Null
      requires originalItem.Some? ==> OwnId(originalItem.value).Str? || OwnId(originalItem.value).Num?
      requires to.Str? || to.Num? || to.Bool? || to.Null?
      modifies this, crud, crud.api
      ensures Valid()
      ensures old(originalItem).None? ==>
        r == Err(NoItem) && crud.api.log == old(crud.api.log) && crud.State() == old(crud.State())
      ensures old(originalItem).Some? ==>
        var from := OwnId(old(originalItem).value);
        && crud.api.log == old(crud.api.log) + MoveLog(crud.pathVal, old(crud.queryVal), old(crud.proplistVal), from, to)
        && r == Ok(Recovery(crud.api.respond, crud.pathVal, crud.snakeCase, LastIdValue(old(crud.queryVal) + MoveWords(from, to))))
        && crud.State() == Builder([], "", false, Null)
      ensures Settled(r, old(props), old(originalItem), props, originalItem)
    {
      if originalItem.None? {
        return Err(NoItem);
      }
      var moved := crud.MoveEntry(OwnId(originalItem.value), to);
      r := Ok(moved);
      Settle(r);
    }

    /** `remove()` (and `delete`): `remove` of the item's own id; the model keeps its properties. With
        no item, reading its `id` throws before anything is sent. */
    method Remove() returns (r: Result<Recovered, Error>)
      requires Valid()
      modifies crud, crud.api
      ensures Valid()
      ensures originalItem.None? ==>
        r == Err(NoItem) && crud.api.log == old(crud.api.log) && crud.State() == old(crud.State())
      ensures originalItem.Some? ==>
        var id := OwnId(originalItem.value);
        var v := Removed(crud.api.respond, crud.pathVal, crud.snakeCase, old(crud.State()), id);
        var t := TargetOf(crud.api.respond, crud.pathVal, crud.snakeCase, old(crud.queryVal), old(crud.proplistVal), id);
        && r == v.result && crud.api.log == old(crud.api.log) + v.log && crud.placeAfter == v.placeAfter
        && LeftBehind(r.Ok?, crud.State(), t.query, t.proplist)
    {
      if originalItem.None? {
        return Err(NoItem);
      }
      r := crud.Remove(OwnId(originalItem.value));
    }
  }

  /** A verb's effect on the model: refreshed with the single item (or `undefined`) it read back; left
      as it was on a failure or a list. */
  predicate Settled(r: Result<Recovered, Error>, props0: map<string, Field>, item0: Option<Item>,
                    props: map<string, Field>, item: Option<Item>) {
    if r.Ok? && r.value.One? then
      item == r.value.item && props == Refreshed(props0, ItemOf(item0), ItemOf(r.value.item))
    else item == item0 && props == props0
  }
}
