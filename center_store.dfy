/**
 * The process-wide store of recorded selection centres. The C# class keeps a
 * static `List<Vector3>` that AddCenter and ClearCenters mutate in place and
 * that GetCenters hands out by reference; here the list is an object of its own
 * (CenterList) that the store holds for its whole life, and the store object
 * stands for the static class (its constructor is the static initialiser).
 */
module CenterStore {
  import opened Vectors

  /** The `List<Vector3>` object; `items` is its contents. */
  class CenterList {
    var items: seq<Vec3>

    constructor ()
      ensures items == []
    {
      items := [];
    }
  }

  class GaussianToolContextCenterStore {
    /** `_centers`: assigned once, never replaced. */
    const centers: CenterList

    /** The store starts empty. */
    constructor ()
      ensures fresh(centers) && centers.items == []
    {
      centers := new CenterList();
    }

    /**
     * Appends pos after every centre recorded so far and returns the number the
     * log line shows for it: the new count, that is, its 1-based position.
     */
    method AddCenter(pos: Vec3) returns (number: nat)
      modifies centers
      ensures centers.items == old(centers.items) + [pos]
      ensures number == |centers.items| && centers.items[number - 1] == pos
    {
      centers.items := centers.items + [pos];
      number := |centers.items|;
    }

    /** Returns the live list itself, not a copy. */
    method GetCenters() returns (list: CenterList)
      ensures list == centers
    {
      list := centers;
    }

    /** Empties the list that every earlier GetCenters caller holds. */
    method ClearCenters()
      modifies centers
      ensures centers.items == []
    {
      centers.items := [];
    }
  }

  /**
   * A session on a fresh store: the list obtained before any add sees the later
   * adds and the clear, and numbering restarts at 1 after a clear.
   */
  method LiveListScenario(p: Vec3, q: Vec3)
    returns (first: nat, second: nat, seenAfterAdds: seq<Vec3>, seenAfterClear: seq<Vec3>, afterClear: nat)
    ensures first == 1 && second == 2
    ensures seenAfterAdds == [p, q]
    ensures seenAfterClear == []
    ensures afterClear == 1
  {
    var store := new GaussianToolContextCenterStore();
    var list := store.GetCenters();
    first := store.AddCenter(p);
    second := store.AddCenter(q);
    seenAfterAdds := list.items;
    store.ClearCenters();
    seenAfterClear := list.items;
    afterClear := store.AddCenter(q);
  }
}
