/** The example item endpoints (app/api/endpoints/items.py): an in-memory list of items, read,
    appended to, updated in place and rebuilt without an id, with a 404 error for a missing id. */
module Items {
  import opened Wrappers

  datatype Item = Item(id: int, name: string, description: Option<string>)

  /** The body of a create or update request. */
  datatype ItemCreate = ItemCreate(name: string, description: Option<string>)

  /** An `HTTPException`: status code and detail. */
  datatype HttpError = HttpError(status: int, detail: string)

  /** The 404 every lookup of a missing id raises. */
  const NotFound: HttpError := HttpError(404, "物品未找到")

  /** The list the module starts with. */
  function InitialItems(): seq<Item>
  {
    [Item(1, "示例物品1", Some("这是第一个示例物品")), Item(2, "示例物品2", Some("这是第二个示例物品"))]
  }

  /** No two items share an id. */
  predicate DistinctIds(items: seq<Item>)
  {
    forall i, j :: 0 <= i < j < |items| ==> items[i].id != items[j].id
  }

  /** `next(item for item in items if item.id == id)`, as a position: the first item with the id,
      or none. */
  function FindIndex(items: seq<Item>, id: int): (r: Option<nat>)
    ensures r.None? <==> forall i :: 0 <= i < |items| ==> items[i].id != id
    ensures r.Some? ==> r.value < |items| && items[r.value].id == id
                        && forall j :: 0 <= j < r.value ==> items[j].id != id
  {
    if items == [] then None
    else if items[0].id == id then Some(0)
    else match FindIndex(items[1..], id)
      case None => None
      case Some(i) => Some(i + 1)
  }

  /** `max([item.id for item in items], default=0)`: 0 for no items, else the largest id. */
  function MaxId(items: seq<Item>): (m: int)
    ensures forall i :: 0 <= i < |items| ==> items[i].id <= m
    ensures items == [] ==> m == 0
    ensures items != [] ==> exists i :: 0 <= i < |items| && items[i].id == m
  {
    if items == [] then 0
    else if |items| == 1 || items[0].id >= MaxId(items[1..]) then items[0].id
    else MaxId(items[1..])
  }

  /** `[item for item in items if item.id != id]` */
  function Without(items: seq<Item>, id: int): (r: seq<Item>)
    ensures forall x :: x in r <==> x in items && x.id != id
    ensures forall x :: multiset(r)[x] == if x.id != id then multiset(items)[x] else 0
    ensures |r| <= |items|
  {
    if items == [] then []
    else
      assert items == [items[0]] + items[1..];
      if items[0].id == id then Without(items[1..], id)
      else [items[0]] + Without(items[1..], id)
  }

  /** `Without` keeps the order of what it keeps: it only drops items, never reorders them. */
  predicate SubsequenceOf(a: seq<Item>, b: seq<Item>)
    decreases |b|
  {
    a == [] || (b != [] && (if a[0] == b[0] then SubsequenceOf(a[1..], b[1..]) else SubsequenceOf(a, b[1..])))
  }

  lemma {:induction false} WithoutKeepsOrder(items: seq<Item>, id: int)
    ensures SubsequenceOf(Without(items, id), items)
    decreases |items|
  {
    if items != [] {
      WithoutKeepsOrder(items[1..], id);
      var rest := Without(items[1..], id);
      if items[0].id != id {
        assert Without(items, id) == [items[0]] + rest;
        assert ([items[0]] + rest)[1..] == rest;
      } else if rest != [] {
        assert rest[0] in items[1..];
        assert rest[0] != items[0];
      }
    }
  }

  /** The item a create request becomes in a given list. */
  function Created(items: seq<Item>, req: ItemCreate): (r: Item)
    ensures forall i :: 0 <= i < |items| ==> items[i].id < r.id
    ensures items == [] ==> r.id == 1
    ensures items != [] ==> exists i :: 0 <= i < |items| && items[i].id == r.id - 1
    ensures r.name == req.name && r.description == req.description
  {
    Item(MaxId(items) + 1, req.name, req.description)
  }

  /** The new id is taken by no item, so the list keeps its ids distinct. */
  lemma CreatePreservesDistinctIds(items: seq<Item>, req: ItemCreate)
    requires DistinctIds(items)
    ensures DistinctIds(items + [Created(items, req)])
  {
    var created := Created(items, req);
    var all := items + [created];
    forall i, j | 0 <= i < j < |all| ensures all[i].id != all[j].id {
      assert all[i] == items[i];
      if j < |items| {
        assert all[j] == items[j];
      }
    }
  }

  /** Looking up the new id finds the appended item, whether or not ids were distinct before. */
  lemma CreatedIsFound(items: seq<Item>, req: ItemCreate)
    ensures FindIndex(items + [Created(items, req)], Created(items, req).id) == Some(|items|)
  {
    var created := Created(items, req);
    var all := items + [created];
    assert all[|items|] == created;
    assert forall i :: 0 <= i < |items| ==> all[i].id <= MaxId(items) < created.id;
    var r := FindIndex(all, created.id);
    assert r.Some?;
    assert r.value == |items|;
  }

  /** Renaming and redescribing an item keeps its id, so distinct ids stay distinct. */
  lemma UpdatePreservesDistinctIds(items: seq<Item>, i: nat, req: ItemCreate)
    requires DistinctIds(items) && i < |items|
    ensures DistinctIds(items[i := Item(items[i].id, req.name, req.description)])
  {
  }

  /** After an update, looking the id up again finds the updated item at the same place. */
  lemma UpdatedIsFound(items: seq<Item>, id: int, req: ItemCreate)
    requires FindIndex(items, id).Some?
    ensures var i := FindIndex(items, id).value;
      FindIndex(items[i := Item(id, req.name, req.description)], id) == Some(i)
  {
    var i := FindIndex(items, id).value;
    var updated := items[i := Item(id, req.name, req.description)];
    forall j | 0 <= j < i ensures updated[j].id != id {
      assert updated[j] == items[j];
    }
    assert updated[i].id == id;
  }

  /** A list without an id holds no item with that id, and keeps distinct ids distinct. */
  lemma DeleteLeavesNoneWithId(items: seq<Item>, id: int)
    ensures FindIndex(Without(items, id), id).None?
    ensures DistinctIds(items) ==> DistinctIds(Without(items, id))
  {
    var r := Without(items, id);
    assert forall i :: 0 <= i < |r| ==> r[i] in r;
    if DistinctIds(items) {
      DistinctIdsWithout(items, id);
    }
  }

  lemma {:induction false} DistinctIdsWithout(items: seq<Item>, id: int)
    requires DistinctIds(items)
    ensures DistinctIds(Without(items, id))
    decreases |items|
  {
    if items != [] {
      var tail := items[1..];
      assert DistinctIds(tail) by {
        forall i, j | 0 <= i < j < |tail| ensures tail[i].id != tail[j].id {
          assert tail[i] == items[i + 1] && tail[j] == items[j + 1];
        }
      }
      DistinctIdsWithout(tail, id);
      var rest := Without(tail, id);
      if items[0].id != id {
        assert forall x :: x in rest ==> x.id != items[0].id by {
          forall x | x in rest ensures x.id != items[0].id {
            assert x in tail;
            TailIdsDiffer(items, x);
          }
        }
        DistinctCons(items[0], rest);
      }
    }
  }

  /** An item whose id no item of a distinct-id list has can be put in front of it. */
  lemma DistinctCons(x: Item, rest: seq<Item>)
    requires DistinctIds(rest) && forall y :: y in rest ==> y.id != x.id
    ensures DistinctIds([x] + rest)
  {
    var r := [x] + rest;
    forall i, j | 0 <= i < j < |r| ensures r[i].id != r[j].id {
      assert r[j] == rest[j - 1];
      if i > 0 {
        assert r[i] == rest[i - 1];
      }
    }
  }

  /** With distinct ids, no later item shares the first item's id. */
  lemma TailIdsDiffer(items: seq<Item>, x: Item)
    requires DistinctIds(items) && items != [] && x in items[1..]
    ensures x.id != items[0].id
  {
    var k :| 0 <= k < |items| - 1 && items[1..][k] == x;
    assert items[k + 1] == x;
  }

  /** The module's `items_db` and the endpoints over it. */
  class ItemStore {
    var items: seq<Item>

    constructor()
      ensures items == InitialItems()
    {
      items := InitialItems();
    }

    /** `get_items`: the whole current list. */
    method GetItems() returns (r: seq<Item>)
      ensures r == items
    {
      r := items;
    }

    /** `get_item`: the first item with the id, else the 404. */
    method GetItem(id: int) returns (r: Result<Item, HttpError>)
      ensures r.Err? <==> forall i :: 0 <= i < |items| ==> items[i].id != id
      ensures r.Err? ==> r.error == NotFound
      ensures r.Ok? ==> exists i :: (0 <= i < |items| && items[i] == r.value && r.value.id == id
                                     && forall j :: 0 <= j < i ==> items[j].id != id)
    {
      var found := FindIndex(items, id);
      if found.None? {
        return Err(NotFound);
      }
      r := Ok(items[found.value]);
    }

    /** `create_item`: the next id after the largest one, the item appended at the end. */
    method CreateItem(req: ItemCreate) returns (r: Item)
      modifies this
      ensures r == Created(old(items), req)
      ensures items == old(items) + [r]
      ensures old(DistinctIds(items)) ==> DistinctIds(items)
    {
      var newId := MaxId(items) + 1;
      r := Item(newId, req.name, req.description);
      if DistinctIds(items) {
        CreatePreservesDistinctIds(items, req);
      }
      items := items + [r];
    }

    /** `update_item`: the first item with the id gets the request's name and description, in
      place; its id and every other item stay as they were. */
    method UpdateItem(id: int, req: ItemCreate) returns (r: Result<Item, HttpError>)
      modifies this
      ensures FindIndex(old(items), id).None? ==> r == Err(NotFound) && items == old(items)
      ensures FindIndex(old(items), id).Some? ==>
        var i := FindIndex(old(items), id).value;
        && r == Ok(Item(id, req.name, req.description))
        && items == old(items)[i := r.value]
      ensures old(DistinctIds(items)) ==> DistinctIds(items)
    {
      var found := FindIndex(items, id);
      if found.None? {
        return Err(NotFound);
      }
      var i := found.value;
      var existing := items[i];
      if DistinctIds(items) {
        UpdatePreservesDistinctIds(items, i, req);
      }
      items := items[i := Item(existing.id, req.name, req.description)];
      r := Ok(items[i]);
    }

    /** `delete_item`: the 404 when no item has the id, else the list rebuilt without every item
      that has it. */
    method DeleteItem(id: int) returns (r: Outcome<HttpError>)
      modifies this
      ensures FindIndex(old(items), id).None? ==> r == Fail(NotFound) && items == old(items)
      ensures FindIndex(old(items), id).Some? ==> r == Pass && items == Without(old(items), id)
    {
      var found := FindIndex(items, id);
      if found.None? {
        return Fail(NotFound);
      }
      items := Without(items, id);
      r := Pass;
    }
  }
}
