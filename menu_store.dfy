/** The menu catalog mirror: a local copy of the service's menu items, kept in
    step with the service by refetching and by applying each acknowledged
    create/update/delete to the list. Every operation awaits one request;
    the reply to that request is a parameter here. */
module MenuStore {
  import opened ShopTypes
  import Seqs

  const FetchFailed := "Failed to fetch menu"
  const CreateFailed := "Failed to create menu item"
  const UpdateFailed := "Failed to update menu item"
  const DeleteFailed := "Failed to delete menu item"

  function ItemId(m: MenuItem): string { m.id }

  function Always(v: MenuItem): MenuItem -> MenuItem { (_: MenuItem) => v }

  /** `menuItems.map(item => item._id === id ? updated : item)`. */
  function Replaced(items: seq<MenuItem>, id: string, updated: MenuItem): (r: seq<MenuItem>)
    ensures |r| == |items|
    ensures forall i :: 0 <= i < |r| ==> r[i] == items[i] || r[i] == updated
  {
    Seqs.MapMatchingAt(items, ItemId, id, Always(updated));
    Seqs.MapMatching(items, ItemId, id, Always(updated))
  }

  /** `menuItems.filter(item => item._id !== id)`. */
  function Deleted(items: seq<MenuItem>, id: string): (r: seq<MenuItem>)
    ensures |r| <= |items|
    ensures forall i :: 0 <= i < |r| ==> r[i].id != id
  {
    Seqs.RemoveKeyMembers(items, ItemId, id);
    var r := Seqs.RemoveKey(items, ItemId, id);
    assert forall i :: 0 <= i < |r| ==> r[i] in r;
    r
  }

  /** An update overwrites every item with the id by the server's copy, leaves the rest in place,
      and adds nothing when no local item has the id. */
  lemma ReplaceEffect(items: seq<MenuItem>, id: string, updated: MenuItem)
    ensures |Replaced(items, id, updated)| == |items|
    ensures forall i :: 0 <= i < |items| && items[i].id != id ==> Replaced(items, id, updated)[i] == items[i]
    ensures forall i :: 0 <= i < |items| && items[i].id == id ==> Replaced(items, id, updated)[i] == updated
    ensures (forall i :: 0 <= i < |items| ==> items[i].id != id) ==> Replaced(items, id, updated) == items
  {
    Seqs.MapMatchingAt(items, ItemId, id, Always(updated));
    if forall i :: 0 <= i < |items| ==> items[i].id != id {
      Seqs.MapMatchingAbsent(items, ItemId, id, Always(updated));
    }
  }

  /** A deletion leaves exactly the items with other ids, in their original order. */
  lemma {:induction false} DeleteEffect(items: seq<MenuItem>, id: string)
    ensures forall x :: x in Deleted(items, id) <==> x in items && x.id != id
    ensures (forall i :: 0 <= i < |items| ==> items[i].id != id) ==> Deleted(items, id) == items
    ensures forall k :: 0 <= k < |items| ==>
      Deleted(items, id) == Deleted(items[..k], id) + Deleted(items[k..], id)
  {
    Seqs.RemoveKeyMembers(items, ItemId, id);
    forall k | 0 <= k < |items|
      ensures Deleted(items, id) == Deleted(items[..k], id) + Deleted(items[k..], id)
    {
      assert items == items[..k] + items[k..];
      Seqs.RemoveKeyConcat(items[..k], items[k..], ItemId, id);
    }
  }

  /** `useMenuStore`. */
  class MenuStore {
    var menuItems: seq<MenuItem>
    var isLoading: bool
    var error: Option<string>

    constructor ()
      ensures menuItems == [] && !isLoading && error == None
    {
      menuItems, isLoading, error := [], false, None;
    }

    /** `set({ isLoading: true, error: null })`: the step every operation takes before it awaits. */
    method BeginRequest()
      modifies this
      ensures isLoading && error == None
      ensures menuItems == old(menuItems)
    {
      isLoading, error := true, None;
    }

    /** `fetchMenuItems`: a reply replaces the whole list; a failure keeps the list, records the
        message and is not re-raised. */
    method FetchMenuItems(reply: Reply<seq<MenuItem>>)
      modifies this
      ensures !isLoading
      ensures reply.Ok? ==> menuItems == reply.data && error == None
      ensures reply.Err? ==> menuItems == old(menuItems) && error == Some(ErrorText(reply.error, FetchFailed))
    {
      BeginRequest();
      match reply
      case Ok(data) =>
        menuItems, isLoading := data, false;
      case Err(e) =>
        error, isLoading := Some(ErrorText(e, FetchFailed)), false;
    }

    /** `createMenuItem`: the server's copy of the new item is appended; a failure keeps the
        list, records the message and is re-raised (`thrown`). */
    method CreateMenuItem(reply: Reply<MenuItem>) returns (thrown: Option<HttpError>)
      modifies this
      ensures !isLoading
      ensures reply.Ok? ==>
        && |menuItems| == |old(menuItems)| + 1
        && menuItems[..|old(menuItems)|] == old(menuItems)
        && menuItems[|menuItems| - 1] == reply.data
        && error == None && thrown == None
      ensures reply.Err? ==>
        && menuItems == old(menuItems)
        && error == Some(ErrorText(reply.error, CreateFailed))
        && thrown == Some(reply.error)
    {
      BeginRequest();
      match reply
      case Ok(created) =>
        menuItems, isLoading := menuItems + [created], false;
        thrown := None;
      case Err(e) =>
        error, isLoading := Some(ErrorText(e, CreateFailed)), false;
        thrown := Some(e);
    }

    /** `updateMenuItem(id, …)`: every local item with the id becomes the server's copy; a failure
        keeps the list, records the message and is re-raised. */
    method UpdateMenuItem(id: string, reply: Reply<MenuItem>) returns (thrown: Option<HttpError>)
      modifies this
      ensures !isLoading
      ensures reply.Ok? ==>
        menuItems == Replaced(old(menuItems), id, reply.data) && error == None && thrown == None
      ensures reply.Err? ==>
        && menuItems == old(menuItems)
        && error == Some(ErrorText(reply.error, UpdateFailed))
        && thrown == Some(reply.error)
    {
      BeginRequest();
      match reply
      case Ok(updated) =>
        menuItems, isLoading := Replaced(menuItems, id, updated), false;
        thrown := None;
      case Err(e) =>
        error, isLoading := Some(ErrorText(e, UpdateFailed)), false;
        thrown := Some(e);
    }

    /** `deleteMenuItem(id)`: every local item with the id is dropped; a failure keeps the list,
        records the message and is re-raised. */
    method DeleteMenuItem(id: string, reply: Reply<()>) returns (thrown: Option<HttpError>)
      modifies this
      ensures !isLoading
      ensures reply.Ok? ==>
        menuItems == Deleted(old(menuItems), id) && error == None && thrown == None
      ensures reply.Err? ==>
        && menuItems == old(menuItems)
        && error == Some(ErrorText(reply.error, DeleteFailed))
        && thrown == Some(reply.error)
    {
      BeginRequest();
      match reply
      case Ok(_) =>
        menuItems, isLoading := Deleted(menuItems, id), false;
        thrown := None;
      case Err(e) =>
        error, isLoading := Some(ErrorText(e, DeleteFailed)), false;
        thrown := Some(e);
    }
  }
}
