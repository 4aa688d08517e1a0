/**
 * Reading the working directory (`readDirectoryAndUpdateBestMatch` in main.go and
 * `ReadDirectoryAndUpdateBestMatch` in utils/utils_unix.go): the `os.ReadDir` result is
 * split into directories and other entries by `IsDir`, both lists are filtered by the
 * query, and the best match is picked from the filtered lists.
 */
module Listing {
  import opened Wrappers
  import opened Catalog
  import opened Search

  /** The infos of the entries whose `Info()` succeeded, in read order. */
  function Readable(entries: seq<DirEntry>): seq<FileInfo>
    decreases |entries|
  {
    if entries == [] then []
    else
      var init, last := entries[..|entries| - 1], entries[|entries| - 1];
      Readable(init) + (if last.info.Some? then [last.info.value] else [])
  }

  /** The readable entries that are directories, in read order. */
  function Directories(entries: seq<DirEntry>): seq<FileInfo>
    decreases |entries|
  {
    if entries == [] then []
    else
      var init, last := entries[..|entries| - 1], entries[|entries| - 1];
      Directories(init) + (if last.info.Some? && last.isDir then [last.info.value] else [])
  }

  /** The readable entries that are not directories, in read order. */
  function RegularFiles(entries: seq<DirEntry>): seq<FileInfo>
    decreases |entries|
  {
    if entries == [] then []
    else
      var init, last := entries[..|entries| - 1], entries[|entries| - 1];
      RegularFiles(init) + (if last.info.Some? && !last.isDir then [last.info.value] else [])
  }

  /** The loop over `os.ReadDir`: skip entries whose `Info()` fails, append by `IsDir`. */
  method Partition(entries: seq<DirEntry>) returns (directories: seq<FileInfo>, regularFiles: seq<FileInfo>)
    ensures directories == Directories(entries)
    ensures regularFiles == RegularFiles(entries)
  {
    directories, regularFiles := [], [];
    for k := 0 to |entries|
      invariant directories == Directories(entries[..k])
      invariant regularFiles == RegularFiles(entries[..k])
    {
      assert entries[..k + 1][..k] == entries[..k];
      var file := entries[k];
      if file.info.None? {
        continue;
      }
      if file.isDir {
        directories := directories + [file.info.value];
      } else {
        regularFiles := regularFiles + [file.info.value];
      }
    }
    assert entries[..|entries|] == entries;
  }

  /** Every readable entry lands in exactly one of the two lists. */
  lemma {:induction false} PartitionIsComplete(entries: seq<DirEntry>)
    ensures multiset(Directories(entries)) + multiset(RegularFiles(entries)) == multiset(Readable(entries))
    ensures |Directories(entries)| + |RegularFiles(entries)| == |Readable(entries)|
    decreases |entries|
  {
    if entries != [] {
      PartitionIsComplete(entries[..|entries| - 1]);
    }
  }

  /** A directory is listed exactly when a readable directory entry carries it. */
  lemma {:induction false} DirectoriesMembers(entries: seq<DirEntry>)
    ensures forall f :: f in Directories(entries) <==> DirEntry(Some(f), true) in entries
    decreases |entries|
  {
    if entries != [] {
      var init, last := entries[..|entries| - 1], entries[|entries| - 1];
      DirectoriesMembers(init);
      assert entries == init + [last];
    }
  }

  /** A non-directory is listed exactly when a readable non-directory entry carries it. */
  lemma {:induction false} RegularFilesMembers(entries: seq<DirEntry>)
    ensures forall f :: f in RegularFiles(entries) <==> DirEntry(Some(f), false) in entries
    decreases |entries|
  {
    if entries != [] {
      var init, last := entries[..|entries| - 1], entries[|entries| - 1];
      RegularFilesMembers(init);
      assert entries == init + [last];
    }
  }

  /** What the directory reader hands back to the event loop. */
  datatype ReadOutcome =
    | Listed(directories: seq<FileInfo>, regularFiles: seq<FileInfo>, hiddenFiles: seq<FileInfo>,
             bestMatch: Option<FileInfo>)
    | ExitedWith(code: int)   // `os.ReadDir` failed: the error is printed and the process exits

  /**
   * `readDirectoryAndUpdateBestMatch`. `listing` is the result of `os.ReadDir(".")`,
   * `None` when it fails. The hidden-file list is always returned empty.
   */
  method ReadDirectoryAndUpdateBestMatch(listing: Option<seq<DirEntry>>, query: string) returns (r: ReadOutcome)
    ensures listing.None? ==> r == ExitedWith(1)
    ensures listing.Some? ==> r.Listed?
    ensures listing.Some? ==> r.directories == Matching(Directories(listing.value), query)
    ensures listing.Some? ==> r.regularFiles == Matching(RegularFiles(listing.value), query)
    ensures listing.Some? ==> r.hiddenFiles == []
    ensures listing.Some? ==>
      r.bestMatch == FirstMatch(Directories(listing.value) + RegularFiles(listing.value) + [], query)
  {
    if listing.None? {
      return ExitedWith(1);
    }
    var directories, regularFiles := Partition(listing.value);
    var filteredDirectories := FilterFiles(directories, query);
    var filteredFiles := FilterFiles(regularFiles, query);
    var bestMatch := FindBestMatch(filteredDirectories, filteredFiles, [], query);
    PrefilterKeepsBestMatch(directories, regularFiles, query);
    r := Listed(filteredDirectories, filteredFiles, [], bestMatch);
  }
}
