/** Package `explorer`: ItemsB, one page of transactions returned by the
    block explorer (a list of items and the total count). Both fields start
    out null. The item list is a heap object: the fluent `Items` stores the
    caller's list itself, and `AddItemsItem` appends to that list in place,
    so every other holder of the list sees the new item (or throws, when the
    stored list is one that cannot grow). */
module Explorer {
  import opened Java

  /** The explorer client's transaction record
      (org.ergoplatform.explorer.client.model.TransactionInfo); its own
      `equals` is taken to be value equality. */
  type TransactionInfo(==)

  /** What an ItemsB shows: the elements of its item list (None while the
      list is null) and its total. */
  datatype Page = Page(items: Option<seq<TransactionInfo>>, total: Option<i32>)

  /** The elements of a possibly absent list; an absent list has none. */
  function Elements(items: Option<seq<TransactionInfo>>): seq<TransactionInfo>
  {
    match items
    case None => []
    case Some(s) => s
  }

  /** The item list left by one `addItemsItem(x)`: a list is created if
      there was none, and `x` is appended. */
  function AddItem(items: Option<seq<TransactionInfo>>, x: TransactionInfo): Option<seq<TransactionInfo>>
  {
    Some(Elements(items) + [x])
  }

  /** The item list left by calling `addItemsItem` with each of `xs`, in
      order, on a page whose list is null or can grow. */
  function AddItems(items: Option<seq<TransactionInfo>>, xs: seq<TransactionInfo>): Option<seq<TransactionInfo>>
    decreases |xs|
  {
    if xs == [] then items else AddItem(AddItems(items, xs[..|xs| - 1]), xs[|xs| - 1])
  }

  /** Successive `addItemsItem` calls append their items in call order after
      the items already there; on a page without a list they build exactly
      the list `xs`; and no call leaves the list null. */
  lemma {:induction false} AddItemsAppends(items: Option<seq<TransactionInfo>>, xs: seq<TransactionInfo>)
    ensures AddItems(items, xs) == if xs == [] then items else Some(Elements(items) + xs)
  {
    if xs != [] {
      var prefix, last := xs[..|xs| - 1], xs[|xs| - 1];
      AddItemsAppends(items, prefix);
      assert xs == prefix + [last];
      if prefix != [] {
        assert Elements(items) + prefix + [last] == Elements(items) + xs;
      }
    }
  }

  /** `Objects.equals` on two item lists: the same object, or two lists with
      equal elements in the same order (`ArrayList.equals`). */
  predicate ListsEqual(a: JList?<TransactionInfo>, b: JList?<TransactionInfo>)
    reads a, b
  {
    a == b || (a != null && b != null && a.elems == b.elems)
  }

  class ItemsB {
    var items: JList?<TransactionInfo>
    var total: Option<i32>

    /** A new page: no item list and no total. */
    constructor ()
      ensures items == null && total == None
    {
      items, total := null, None;
    }

    function View(): Page
      reads this, items
    {
      Page(if items == null then None else Some(items.elems), total)
    }

    /** The fluent `items(l)`: stores the list itself and returns this page. */
    method Items(items: JList?<TransactionInfo>) returns (self: ItemsB)
      modifies this`items
      ensures this.items == items && self == this
    {
      this.items := items;
      self := this;
    }

    /** `addItemsItem(x)`: creates a fresh empty list if there is none, then
        appends `x` to the list in place; the total is unchanged and this
        page is returned. A list that cannot grow (one the caller stored
        with `Items` or `SetItems`) makes the call throw
        UnsupportedOperationException and leaves the page as it was. */
    method AddItemsItem(x: TransactionInfo) returns (r: Result<ItemsB>)
      modifies this`items, items
      ensures old(items) != null && !old(items).modifiable ==>
        r == Throws(UnsupportedOperationException) && items == old(items) && View() == old(View())
      ensures old(items) == null || old(items).modifiable ==>
        r == Ok(this) && View() == old(View()).(items := AddItem(old(View()).items, x))
      ensures old(items) == null ==> items != null && fresh(items) && items.modifiable
      ensures old(items) != null ==> items == old(items)
    {
      if items == null {
        items := new JList<TransactionInfo>.Empty();
      }
      var thrown := items.Add(x);
      if thrown.Some? {
        return Throws(thrown.value);
      }
      r := Ok(this);
    }

    method SetItems(items: JList?<TransactionInfo>)
      modifies this`items
      ensures this.items == items
    {
      this.items := items;
    }

    /** The fluent `total(t)`: stores the total and returns this page. */
    method Total(total: Option<i32>) returns (self: ItemsB)
      modifies this`total
      ensures this.total == total && self == this
    {
      this.total := total;
      self := this;
    }

    method SetTotal(total: Option<i32>)
      modifies this`total
      ensures this.total == total
    {
      this.total := total;
    }

    /** `equals(o)`: true for this very object; false for null and for an
        object of another class; otherwise the item lists are
        `Objects.equals` and so are the totals. */
    predicate Equals(o: object?)
      reads this, items, if o is ItemsB then {o, (o as ItemsB).items} else {}
      ensures o == this ==> Equals(o)
      ensures o == null || !(o is ItemsB) ==> !Equals(o)
    {
      this == o || (o != null && o is ItemsB && ListsEqual(items, (o as ItemsB).items) && total == (o as ItemsB).total)
    }

    /** Two pages are `equals` exactly when they show the same items and the
        same total; in particular `equals` is reflexive, symmetric and
        transitive, and false for null. */
    lemma EqualsIffSamePage(o: ItemsB?)
      ensures Equals(o) <==> o != null && View() == o.View()
    {
    }
  }
}
