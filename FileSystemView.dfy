/** The file-system panel: six fixed directory keys, one of them selected,
    and the selected key's entries listed newest first. The stored lists are
    only read, never changed. */
module FileSystemView {
  import opened Types

  /** The directory keys the panel offers, in display order. */
  const Directories: seq<string> :=
    ["/identity", "/income", "/automation", "/knowledge", "/creative", "/logs"]

  /** The panel's own state: which directory is selected. */
  datatype Panel = Panel(selected: string)

  /** The panel as first shown: the first directory is selected. */
  function InitialPanel(): (p: Panel)
    ensures p.selected == Directories[0] == "/identity"
    ensures p.selected in Directories
  {
    Panel(Directories[0])
  }

  /** Clicking a directory button selects that directory and changes nothing
      else; from a reachable panel the selection stays one of the six. */
  function Select(p: Panel, dir: string): (q: Panel)
    requires dir in Directories
    ensures q.selected == dir && q.selected in Directories
  {
    p.(selected := dir)
  }

  /** `s.slice().reverse()`: a reversed copy. */
  function Reverse<T>(s: seq<T>): (r: seq<T>)
    ensures |r| == |s|
  {
    if s == [] then [] else Reverse(s[1..]) + [s[0]]
  }

  lemma {:induction false} ReverseAt<T>(s: seq<T>, k: nat)
    requires k < |s|
    ensures Reverse(s)[k] == s[|s| - 1 - k]
  {
    if k < |s| - 1 {
      ReverseAt(s[1..], k);
    }
  }

  /** Reversing the copy twice gives back the stored list: nothing of it is
      lost or reordered by listing it. */
  lemma {:induction false} ReverseReverse<T>(s: seq<T>)
    ensures Reverse(Reverse(s)) == s
  {
    var r := Reverse(Reverse(s));
    forall k | 0 <= k < |s| ensures r[k] == s[k] {
      ReverseAt(Reverse(s), k);
      ReverseAt(s, |s| - 1 - k);
    }
  }

  /** The entries stored under `dir`, or none when the key is missing. */
  function Stored(fs: FileSystem, dir: string): seq<FileEntry> {
    if dir in fs then fs[dir] else []
  }

  /** The entries shown for `dir`: the stored ones, last appended first; a
      missing key shows no entries rather than failing. */
  function Listing(fs: FileSystem, dir: string): (r: seq<FileEntry>)
    ensures dir !in fs ==> r == []
    ensures |r| == |Stored(fs, dir)|
    ensures forall k :: 0 <= k < |r| ==> r[k] == Stored(fs, dir)[|r| - 1 - k]
  {
    var s := Stored(fs, dir);
    var r := Reverse(s);
    assert forall k :: 0 <= k < |r| ==> r[k] == s[|r| - 1 - k] by {
      forall k | 0 <= k < |r| ensures r[k] == s[|r| - 1 - k] {
        ReverseAt(s, k);
      }
    }
    r
  }

  /** The listing, reversed back, is exactly the stored list. */
  lemma ListingKeepsStored(fs: FileSystem, dir: string)
    ensures Reverse(Listing(fs, dir)) == Stored(fs, dir)
  {
    ReverseReverse(Stored(fs, dir));
  }

  /** An entry appended under `dir` is listed first, ahead of the older ones. */
  lemma {:induction false} AppendedListedFirst(fs: FileSystem, dir: string, e: FileEntry)
    ensures Listing(fs[dir := Stored(fs, dir) + [e]], dir) == [e] + Listing(fs, dir)
  {
    var s := Stored(fs, dir);
    var fs' := fs[dir := s + [e]];
    assert Stored(fs', dir) == s + [e];
    var a := Listing(fs', dir);
    var b := [e] + Listing(fs, dir);
    assert |a| == |b|;
    forall k | 0 <= k < |a| ensures a[k] == b[k] {
      if k > 0 {
        assert a[k] == (s + [e])[|s| - k];
        assert b[k] == Listing(fs, dir)[k - 1];
      }
    }
  }

  /** The "No entries found." line: shown when the key is missing or its
      list is empty. */
  predicate ShowsPlaceholder(fs: FileSystem, dir: string) {
    dir !in fs || |fs[dir]| == 0
  }

  /** The placeholder is shown exactly when there are no entries to list. */
  lemma PlaceholderIffNoEntries(fs: FileSystem, dir: string)
    ensures ShowsPlaceholder(fs, dir) <==> Listing(fs, dir) == []
  {
  }
}
