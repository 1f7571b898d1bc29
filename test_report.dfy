/**
 * `TestReport`: a named report holding a list of report nodes. The list is
 * an object of its own, so assigning `Items` shares it, and later additions
 * go to whatever list the report holds at the time.
 */
module Reports {
  import opened Wrappers
  import opened Text

  /** A node of a report; its contents are not part of this model. */
  class TestReportNode {
    constructor ()
    {
    }
  }

  /** A `List<TestReportNode>`. */
  class ItemList {
    var elems: seq<TestReportNode>

    constructor ()
      ensures elems == []
    {
      elems := [];
    }

    /** `List.Add`: append at the end. */
    method Add(x: TestReportNode)
      modifies this
      ensures elems == old(elems) + [x]
    {
      elems := elems + [x];
    }
  }

  class TestReport {
    var testName: NStr
    var items: ItemList

    /** A new report holds a new, empty list. */
    constructor ()
      ensures fresh(items) && items.elems == []
      ensures testName.None?
    {
      testName := None;
      items := new ItemList();
    }

    /** The `Items` getter: the list itself, not a copy. */
    function Items(): (l: ItemList)
      reads this
      ensures l == items
    {
      items
    }

    /** The `Items` setter: the report now holds `l`. */
    method SetItems(l: ItemList)
      modifies this
      ensures items == l && testName == old(testName)
    {
      items := l;
    }

    /** `AddReportItem`: append to the list the report holds; the report itself is unchanged. */
    method AddReportItem(x: TestReportNode)
      modifies items
      ensures items.elems == old(items.elems) + [x]
      ensures |items.elems| == |old(items.elems)| + 1 && items.elems[..|old(items.elems)|] == old(items.elems)
    {
      items.Add(x);
    }
  }

  /** After `Items` is assigned, additions land in the new list and the old list no longer grows. */
  method AddAfterReplace(r: TestReport, l: ItemList, x: TestReportNode)
    requires l != r.items
    modifies r, l
    ensures r.items == l && l.elems == old(l.elems) + [x]
    ensures old(r.items).elems == old(r.items.elems)
  {
    r.SetItems(l);
    r.AddReportItem(x);
  }
}
