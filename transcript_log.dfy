/** The conversation transcript shared by the session and the transcript
    panel. Its provider (TranscriptContext) is not part of this model; what
    is modelled is the interface both components call: append a message or
    a breadcrumb under a fresh id, and overwrite or extend the text of the
    item with a given id. */
module Transcript {

  datatype ItemType = Message | Breadcrumb

  /** `role` is optional on a transcript item: `NoRole` stands for absent. */
  datatype Role = User | Assistant | NoRole

  /** A transcript item; an absent `title` or `timestamp` is "". */
  datatype Item = Item(id: string, itemType: ItemType, role: Role, title: string, timestamp: string)

  function Ids(items: seq<Item>): (r: set<string>)
    ensures forall i :: 0 <= i < |items| ==> items[i].id in r
    ensures forall id :: id in r ==> exists i :: 0 <= i < |items| && items[i].id == id
  {
    if items == [] then {} else Ids(items[..|items| - 1]) + {items[|items| - 1].id}
  }

  predicate UniqueIds(items: seq<Item>) {
    forall i, j :: 0 <= i < j < |items| ==> items[i].id != items[j].id
  }

  /** The text an update leaves on an item: replaced, or extended when
      `append` is set. */
  function UpdatedTitle(title: string, text: string, append: bool): string {
    if append then title + text else text
  }

  class Log {
    var items: seq<Item>

    ghost predicate Valid()
      reads this
    {
      UniqueIds(items)
    }

    constructor ()
      ensures Valid() && items == []
    {
      items := [];
    }

    /** Appends a message under a fresh id (every caller draws its ids
        from `uuidv4`); the new item is last and ids stay unique. */
    method AddMessage(id: string, role: Role, text: string, timestamp: string)
      requires Valid() && id !in Ids(items)
      modifies this
      ensures Valid()
      ensures items == old(items) + [Item(id, Message, role, text, timestamp)]
      ensures Ids(items) == Ids(old(items)) + {id}
    {
      Append(Item(id, Message, role, text, timestamp));
    }

    /** Appends a diagnostic breadcrumb (a non-conversational marker) under
        a fresh id. It stands for the provider's `addTranscriptBreadcrumb`,
        which the screen hands to the SDK and calls after a hand-off; no
        modelled handler calls it, and it is here so that breadcrumbs can
        enter the transcript the panel reads. */
    method AddBreadcrumb(id: string, text: string, timestamp: string)
      requires Valid() && id !in Ids(items)
      modifies this
      ensures Valid()
      ensures items == old(items) + [Item(id, Breadcrumb, NoRole, text, timestamp)]
      ensures Ids(items) == Ids(old(items)) + {id}
    {
      Append(Item(id, Breadcrumb, NoRole, text, timestamp));
    }

    method Append(item: Item)
      requires Valid() && item.id !in Ids(items)
      modifies this
      ensures Valid()
      ensures items == old(items) + [item]
      ensures Ids(items) == Ids(old(items)) + {item.id}
    {
      items := items + [item];
      assert items[..|items| - 1] == old(items);
    }

    /** Finds the item with the given id and replaces (or, with `append`,
        extends) its text; an unknown id leaves the transcript as it was. */
    method UpdateMessage(id: string, text: string, append: bool)
      requires Valid()
      modifies this
      ensures Valid()
      ensures |items| == |old(items)|
      ensures forall k :: 0 <= k < |items| ==>
                items[k] == if old(items)[k].id == id
                            then old(items)[k].(title := UpdatedTitle(old(items)[k].title, text, append))
                            else old(items)[k]
    {
      var i := 0;
      while i < |items| && items[i].id != id
        invariant 0 <= i <= |items|
        invariant forall k :: 0 <= k < i ==> items[k].id != id
      {
        i := i + 1;
      }
      if i < |items| {
        items := items[i := items[i].(title := UpdatedTitle(items[i].title, text, append))];
      }
    }
  }
}
