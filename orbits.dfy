/** src/utils/orbits.rs: the list of saved orbits kept in the browser's
    local storage under the key "orbits".  Each entry is a series index and
    the series' samples.  The JSON text is not modelled: the storage holds
    either no value, a value that does not parse, or a parsed list. */
module StoredOrbits {
  import opened Int8Cast
  import opened OrbitVisualization

  /** The value under the "orbits" key. */
  datatype StoredItem = Absent | Malformed | Parsed(list: seq<StoredOrbit>)

  /** What load_orbits returns: the stored list when the storage is reachable
      and the value parses, the empty list in every other case. */
  function LoadOrbitsSpec(available: bool, item: StoredItem): (orbits: seq<StoredOrbit>)
    ensures orbits != [] ==> available && item.Parsed? && orbits == item.list
    ensures !available || !item.Parsed? ==> orbits == []
  {
    if available && item.Parsed? then item.list else []
  }

  /** The storage after add_orbit: a parsed list gets (its length as i8,
      points) pushed at its end; a missing value becomes the one-entry list
      [(0, points)]; a value that does not parse, or an unreachable storage,
      is left as it is. */
  function AddOrbitSpec(available: bool, item: StoredItem, points: seq<RadiusPoint>): (r: StoredItem)
    ensures r.Parsed? || r == item
    ensures available && item.Parsed? ==> r.Parsed? && item.list < r.list
  {
    if !available then item
    else match item
      case Parsed(list) => Parsed(list + [(AsI8(|list|), points)])
      case Malformed => item
      case Absent => Parsed([(0, points)])
  }

  /** The storage after remove_last_orbit, with the empty list left empty
      (see RemoveLastAsWritten for the code as written).  A missing key and
      a value that does not parse are left exactly as they are, and so is an
      unreachable storage; a parsed list stays parsed and keeps a prefix. */
  function RemoveLast(available: bool, item: StoredItem): (r: StoredItem)
    ensures r.Parsed? <==> item.Parsed?
    ensures r.Parsed? ==> r.list <= item.list
    ensures !available || !item.Parsed? ==> r == item
  {
    if !available then item
    else match item
      case Parsed(list) => if |list| > 0 then Parsed(list[..|list| - 1]) else item
      case Malformed => item
      case Absent => item
  }

  /** The storage after clear_orbits: an empty list, when the storage is
      reachable. */
  function ClearSpec(available: bool, item: StoredItem): (r: StoredItem)
    ensures available ==> r == Parsed([])
    ensures !available ==> r == item
  {
    if available then Parsed([]) else item
  }

  /** Adding an orbit to a readable list appends (previous length as i8,
      points) to what load_orbits returns and keeps the earlier entries; on a
      value that does not parse, or without storage, nothing changes. */
  lemma LoadAfterAdd(available: bool, item: StoredItem, points: seq<RadiusPoint>)
    ensures var before := LoadOrbitsSpec(available, item);
      available && !item.Malformed? ==>
        LoadOrbitsSpec(available, AddOrbitSpec(available, item, points)) == before + [(AsI8(|before|), points)]
    ensures !available || item.Malformed? ==> AddOrbitSpec(available, item, points) == item
  {
  }

  /** Removing the last orbit drops exactly the final loaded entry and keeps
      the others in order; an empty or unreadable list stays as it loads. */
  lemma RemoveDropsFinal(available: bool, item: StoredItem)
    ensures var before := LoadOrbitsSpec(available, item);
      var after := LoadOrbitsSpec(available, RemoveLast(available, item));
      && (before != [] ==> after + [before[|before| - 1]] == before)
      && (before == [] ==> after == [])
  {
  }

  /** Removing leaves a missing key or unparseable text untouched, so a
      later add still sees the same value: it starts a fresh list for a
      missing key and keeps the unparseable text. */
  lemma RemoveKeepsUnparsed(available: bool, item: StoredItem, points: seq<RadiusPoint>)
    requires !item.Parsed?
    ensures RemoveLast(available, item) == item
    ensures AddOrbitSpec(available, RemoveLast(available, item), points)
         == (if available && item.Absent? then Parsed([(0, points)]) else item)
  {
  }

  /** Removing the last orbit undoes adding one, as far as load_orbits can
      tell. */
  lemma RemoveUndoesAdd(available: bool, item: StoredItem, points: seq<RadiusPoint>)
    ensures LoadOrbitsSpec(available, RemoveLast(available, AddOrbitSpec(available, item, points)))
         == LoadOrbitsSpec(available, item)
  {
    if available && item.Parsed? {
      var l := item.list + [(AsI8(|item.list|), points)];
      assert l[..|l| - 1] == item.list;
    }
  }

  /** After clear_orbits, load_orbits returns nothing. */
  lemma LoadAfterClear(available: bool, item: StoredItem)
    ensures LoadOrbitsSpec(available, ClearSpec(available, item)) == []
  {
  }

  /** add_orbit applied to each series in turn. */
  function AddAll(available: bool, item: StoredItem, series: seq<seq<RadiusPoint>>): StoredItem
    decreases |series|
  {
    if series == [] then item
    else AddOrbitSpec(available, AddAll(available, item, series[..|series| - 1]), series[|series| - 1])
  }

  /** The series numbered 0, 1, 2, ... as i8. */
  function Numbered(series: seq<seq<RadiusPoint>>): (orbits: seq<StoredOrbit>)
    ensures |orbits| == |series|
    ensures forall i :: 0 <= i < |series| ==> orbits[i] == (AsI8(i), series[i])
    decreases |series|
  {
    if series == [] then []
    else Numbered(series[..|series| - 1]) + [(AsI8(|series| - 1), series[|series| - 1])]
  }

  /** Saving series one after another into a cleared (or never written)
      storage numbers them 0, 1, 2, ... as i8: entry i is (i as i8, series
      i). */
  lemma {:induction false} AddAllNumbers(available: bool, item: StoredItem, series: seq<seq<RadiusPoint>>)
    requires available && (item == Absent || item == Parsed([]))
    ensures AddAll(available, item, series).Parsed? || series == []
    ensures LoadOrbitsSpec(available, AddAll(available, item, series)) == Numbered(series)
    decreases |series|
  {
    if series != [] {
      var init := series[..|series| - 1];
      AddAllNumbers(available, item, init);
      LoadAfterAdd(available, AddAll(available, item, init), series[|series| - 1]);
    }
  }

  /** The 129th orbit saved into an empty list gets the index -128. */
  lemma IndexWraps(available: bool, item: StoredItem, series: seq<seq<RadiusPoint>>)
    requires available && (item == Absent || item == Parsed([])) && |series| > 128
    ensures var orbits := LoadOrbitsSpec(available, AddAll(available, item, series));
      |orbits| == |series| && orbits[128].0 == -128
  {
    AddAllNumbers(available, item, series);
    assert Numbered(series)[128].0 == AsI8(128);
  }

  /** The outcome of remove_last_orbit as written: `vec.len() - 1` on an
      empty vector underflows, and either the subtraction (debug build) or
      `remove(usize::MAX)` (release build) panics. */
  datatype RemoveOutcome = Panicked | Removed(item: StoredItem)

  function RemoveLastAsWritten(available: bool, item: StoredItem): (r: RemoveOutcome)
    ensures r.Panicked? <==> available && item == Parsed([])
    ensures !available || !item.Parsed? ==> r == Removed(item)
  {
    if !available then Removed(item)
    else match item
      case Parsed(list) => if |list| == 0 then Panicked else Removed(Parsed(list[..|list| - 1]))
      case Malformed => Removed(item)
      case Absent => Removed(item)
  }

  /** Pressing "remove last orbit" after clearing the list panics in the
      code as written; the corrected RemoveLast leaves the empty list alone. */
  lemma RemoveAfterClearPanics()
    ensures RemoveLastAsWritten(true, ClearSpec(true, Absent)) == Panicked
    ensures RemoveLast(true, ClearSpec(true, Absent)) == Parsed([])
  {
  }

  /** Wherever the code as written does not panic, it agrees with the
      corrected RemoveLast. */
  lemma RemoveLastAgrees(available: bool, item: StoredItem)
    ensures RemoveLastAsWritten(available, item).Removed? ==>
      RemoveLastAsWritten(available, item).item == RemoveLast(available, item)
  {
  }

  /** The browser's local storage as this module sees it: whether window()
      and local_storage() both succeed, and the value under "orbits". */
  class BrowserStorage {
    const available: bool
    var item: StoredItem

    constructor (available: bool, item: StoredItem)
      ensures this.available == available && this.item == item
    {
      this.available := available;
      this.item := item;
    }

    /** add_orbit */
    method AddOrbit(points: seq<RadiusPoint>)
      modifies this
      ensures item == AddOrbitSpec(available, old(item), points)
    {
      if available {
        match item {
          case Parsed(list) =>
            var vec := list;
            vec := vec + [(AsI8(|vec|), points)];
            item := Parsed(vec);
          case Malformed =>
          case Absent =>
            item := Parsed([(0, points)]);
        }
      }
    }

    /** load_orbits: the stored list, or the empty list when the storage is
        unreachable, the key is missing or the value does not parse. */
    method LoadOrbits() returns (orbits: seq<StoredOrbit>)
      ensures orbits == LoadOrbitsSpec(available, item)
    {
      if available {
        match item {
          case Parsed(list) => orbits := list;
          case Malformed => orbits := [];
          case Absent => orbits := [];
        }
      } else {
        orbits := [];
      }
    }

    /** remove_last_orbit, with the empty list left empty. */
    method RemoveLastOrbit()
      modifies this
      ensures item == RemoveLast(available, old(item))
    {
      if available {
        match item {
          case Parsed(list) =>
            var vec := list;
            if |vec| > 0 {
              vec := vec[..|vec| - 1];
            }
            item := Parsed(vec);
          case Malformed =>
          case Absent =>
        }
      }
    }

    /** clear_orbits */
    method ClearOrbits()
      modifies this
      ensures item == ClearSpec(available, old(item))
    {
      if available {
        item := Parsed([]);
      }
    }
  }
}
