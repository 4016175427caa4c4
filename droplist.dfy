/**
 * The drag-and-drop file list: what a drop adds to it, and which of its items
 * are selected.
 */
module DropList {

  /** A dropped URL: a local file (with the path `toLocalFile` gives) or anything else. */
  datatype Url = LocalFile(path: string) | Remote(address: string)

  predicate Distinct<T(==)>(s: seq<T>) {
    forall i, j :: 0 <= i < j < |s| ==> s[i] != s[j]
  }

  /** The position of the first occurrence of `x` in `s`, or `|s|` when there is none. */
  function FirstIndex<T(==)>(s: seq<T>, x: T): (k: nat)
    ensures k <= |s|
    ensures k < |s| <==> x in s
    ensures k < |s| ==> s[k] == x
    ensures forall j :: 0 <= j < k ==> s[j] != x
  {
    if s == [] then 0
    else if s[0] == x then 0
    else 1 + FirstIndex(s[1..], x)
  }

  /**
   * The paths the loop of `dropEvent` adds for `urls` once the paths in `seen`
   * have been added in this drop: each local path, at its first occurrence,
   * unless it has been seen; non-local URLs are skipped.
   */
  function NewPaths(urls: seq<Url>, seen: set<string>): (r: seq<string>)
    ensures |r| <= |urls|
    ensures forall i :: 0 <= i < |r| ==> r[i] !in seen
    decreases |urls|
  {
    if urls == [] then []
    else match urls[0]
      case LocalFile(p) =>
        if p !in seen then [p] + NewPaths(urls[1..], seen + {p})
        else NewPaths(urls[1..], seen)
      case Remote(_) => NewPaths(urls[1..], seen)
  }

  /** A path is added exactly when some dropped URL is that local file and it was not seen yet. */
  lemma {:induction false} NewPathsMembers(urls: seq<Url>, seen: set<string>, x: string)
    ensures x in NewPaths(urls, seen) <==> x !in seen && LocalFile(x) in urls
    decreases |urls|
  {
    if urls != [] {
      assert urls == [urls[0]] + urls[1..];
      match urls[0]
      case LocalFile(p) =>
        if p !in seen {
          NewPathsMembers(urls[1..], seen + {p}, x);
        } else {
          NewPathsMembers(urls[1..], seen, x);
        }
      case Remote(_) =>
        NewPathsMembers(urls[1..], seen, x);
    }
  }

  /** No path is added twice within one drop, and none that was already seen. */
  lemma {:induction false} NewPathsDistinct(urls: seq<Url>, seen: set<string>)
    ensures Distinct(NewPaths(urls, seen))
    ensures forall x :: x in NewPaths(urls, seen) ==> x !in seen
    decreases |urls|
  {
    var r := NewPaths(urls, seen);
    forall x | x in r ensures x !in seen {
      NewPathsMembers(urls, seen, x);
    }
    if urls != [] {
      match urls[0]
      case LocalFile(p) =>
        if p !in seen {
          NewPathsDistinct(urls[1..], seen + {p});
          var rest := NewPaths(urls[1..], seen + {p});
          assert r == [p] + rest;
          forall i, j | 0 <= i < j < |r| ensures r[i] != r[j] {
            if i == 0 {
              assert r[j] == rest[j - 1] && r[j] in rest;
            } else {
              assert r[i] == rest[i - 1] && r[j] == rest[j - 1];
            }
          }
        } else {
          NewPathsDistinct(urls[1..], seen);
        }
      case Remote(_) =>
        NewPathsDistinct(urls[1..], seen);
    }
  }

  /** Of any two entries of `r`, the earlier one first occurs earlier among the local files of `urls`. */
  predicate InDropOrder(urls: seq<Url>, r: seq<string>) {
    forall i, j :: 0 <= i < j < |r| ==>
      FirstIndex(urls, LocalFile(r[i])) < FirstIndex(urls, LocalFile(r[j]))
  }

  /**
   * Paths are added in the order of their first occurrence as local files:
   * of two added paths, the earlier one was dropped first.
   */
  lemma {:induction false} NewPathsInDropOrder(urls: seq<Url>, seen: set<string>)
    ensures InDropOrder(urls, NewPaths(urls, seen))
    decreases |urls|, 1
  {
    if urls != [] {
      match urls[0]
      case LocalFile(p) =>
        if p !in seen {
          var r := NewPaths(urls, seen);
          var rest := NewPaths(urls[1..], seen + {p});
          ShiftedOrder(urls, seen + {p});
          assert r == [p] + rest;
          assert FirstIndex(urls, LocalFile(p)) == 0;
          forall i, j | 0 <= i < j < |r|
            ensures FirstIndex(urls, LocalFile(r[i])) < FirstIndex(urls, LocalFile(r[j]))
          {
            assert r[j] == rest[j - 1];
            if i > 0 {
              assert r[i] == rest[i - 1];
            }
          }
        } else {
          ShiftedOrder(urls, seen);
        }
      case Remote(_) =>
        ShiftedOrder(urls, seen);
    }
  }

  /**
   * One step of NewPathsInDropOrder: when the head URL adds nothing new, the
   * paths added by the tail keep their order, and each first occurs after the head.
   */
  lemma {:induction false} ShiftedOrder(urls: seq<Url>, seen': set<string>)
    requires urls != []
    requires urls[0].LocalFile? ==> urls[0].path in seen'
    ensures InDropOrder(urls, NewPaths(urls[1..], seen'))
    ensures forall j :: 0 <= j < |NewPaths(urls[1..], seen')| ==>
      0 < FirstIndex(urls, LocalFile(NewPaths(urls[1..], seen')[j]))
    decreases |urls|, 0
  {
    var rest := NewPaths(urls[1..], seen');
    NewPathsInDropOrder(urls[1..], seen');
    assert InDropOrder(urls[1..], rest);
    forall j | 0 <= j < |rest|
      ensures FirstIndex(urls, LocalFile(rest[j])) == 1 + FirstIndex(urls[1..], LocalFile(rest[j]))
    {
      NewPathsMembers(urls[1..], seen', rest[j]);
    }
  }

  /** The `QListWidget` holding the dropped paths, and its current selection. */
  class ListBox {
    /** The item texts, in list order. */
    var items: seq<string>
    /** The selected rows, in the order `selectedItems()` reports them. */
    var selected: seq<nat>

    ghost predicate Valid()
      reads this
    {
      Distinct(selected) && forall i :: 0 <= i < |selected| ==> selected[i] < |items|
    }

    constructor ()
      ensures Valid() && items == [] && selected == []
    {
      items := [];
      selected := [];
    }

    /** `[item.text() for item in selectedItems()]`. */
    function SelectedTexts(): (r: seq<string>)
      reads this
      requires Valid()
      ensures |r| == |selected|
      ensures forall i :: 0 <= i < |r| ==> r[i] == items[selected[i]]
      ensures forall t :: t in r ==> t in items
    {
      var rows, texts := selected, items;
      seq(|rows|, i requires 0 <= i < |rows| => texts[rows[i]])
    }

    /** `addItem(text)`. */
    method AddItem(text: string)
      requires Valid()
      modifies this`items
      ensures Valid() && items == old(items) + [text]
    {
      items := items + [text];
    }

    /**
     * `dropEvent`: walks the dropped URLs with a set of the paths added so far
     * in this drop, and appends every local path not yet in that set. The set
     * starts empty, so a path already listed by an earlier drop is listed again.
     */
    method DropEvent(urls: seq<Url>)
      requires Valid()
      modifies this`items
      ensures Valid()
      ensures items == old(items) + NewPaths(urls, {})
    {
      var uniqueLinks: set<string> := {};
      var i := 0;
      while i < |urls|
        invariant 0 <= i <= |urls|
        invariant Valid()
        invariant items + NewPaths(urls[i..], uniqueLinks) == old(items) + NewPaths(urls, {})
      {
        assert urls[i..][1..] == urls[i + 1..];
        match urls[i] {
          case LocalFile(filePath) =>
            if filePath !in uniqueLinks {
              uniqueLinks := uniqueLinks + {filePath};
              AddItem(filePath);
            }
          case Remote(_) =>
        }
        i := i + 1;
      }
      assert urls[i..] == [];
    }
  }

  /**
   * What one drop appends: every local path of the drop once, nothing else,
   * in the order of first occurrence.
   */
  lemma {:induction false} DroppedPaths(urls: seq<Url>)
    ensures Distinct(NewPaths(urls, {}))
    ensures forall x :: x in NewPaths(urls, {}) <==> LocalFile(x) in urls
    ensures InDropOrder(urls, NewPaths(urls, {}))
  {
    NewPathsDistinct(urls, {});
    NewPathsInDropOrder(urls, {});
    forall x ensures x in NewPaths(urls, {}) <==> LocalFile(x) in urls {
      NewPathsMembers(urls, {}, x);
    }
  }
}
