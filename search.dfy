/**
 * The incremental search of utils/utils.go (`FilterFiles`, `FindBestMatch`) and of its
 * twins in main.go (`filterFiles`, `findBestMatch`, same code): a case-insensitive
 * substring filter that keeps list order, and a first-match pick over
 * directories ++ files ++ hidden files.
 */
module Search {
  import opened Wrappers
  import opened Catalog

  /**
   * `strings.ToLower` on one character. Only A-Z are lowered here; Go's full Unicode
   * case mapping is not modelled (none of the lemmas below depends on the mapping).
   */
  function LowerChar(c: char): char
  {
    if 'A' <= c <= 'Z' then (c as int + 32) as char else c
  }

  /** `strings.ToLower`, character by character. */
  function Lower(s: string): (r: string)
    ensures |r| == |s|
    ensures forall k :: 0 <= k < |s| ==> r[k] == LowerChar(s[k])
  {
    seq(|s|, k requires 0 <= k < |s| => LowerChar(s[k]))
  }

  /** `strings.Contains(s, sub)`: `sub` is a prefix of some suffix of `s`. */
  predicate Contains(s: string, sub: string)
    decreases |s|
  {
    sub <= s || (s != [] && Contains(s[1..], sub))
  }

  /** `sub` occurs in `s` starting at index `i`. */
  predicate OccursAt(s: string, sub: string, i: int)
  {
    0 <= i && i + |sub| <= |s| && s[i..i + |sub|] == sub
  }

  /** `Contains` agrees with the positional definition of a substring. */
  lemma {:induction false} ContainsIffOccurs(s: string, sub: string)
    ensures Contains(s, sub) <==> exists i :: OccursAt(s, sub, i)
    decreases |s|
  {
    assert OccursAt(s, sub, 0) <==> sub <= s;
    if s != [] {
      ContainsIffOccurs(s[1..], sub);
      if Contains(s[1..], sub) {
        var i :| OccursAt(s[1..], sub, i);
        assert s[1..][i..i + |sub|] == s[i + 1..i + 1 + |sub|];
        assert OccursAt(s, sub, i + 1);
      }
      if exists i :: OccursAt(s, sub, i) {
        var i :| OccursAt(s, sub, i);
        if i > 0 {
          assert s[1..][i - 1..i - 1 + |sub|] == s[i..i + |sub|];
          assert OccursAt(s[1..], sub, i - 1);
        }
      }
    }
  }

  /** The search predicate: the lower-cased name contains the lower-cased query. */
  predicate Matches(f: FileInfo, query: string)
  {
    Contains(Lower(f.name), Lower(query))
  }

  /** Every name contains the empty query (`strings.Contains(x, "")` is true). */
  lemma EmptyQueryMatches(f: FileInfo)
    ensures Matches(f, "")
  {
  }

  /** The entries of `files` that match `query`, in their original order. */
  function Matching(files: seq<FileInfo>, query: string): seq<FileInfo>
    decreases |files|
  {
    if files == [] then []
    else
      var init, last := files[..|files| - 1], files[|files| - 1];
      Matching(init, query) + (if Matches(last, query) then [last] else [])
  }

  /**
   * `FilterFiles`: the query "" returns the list itself; otherwise the loop appends the
   * matching entries one by one.
   */
  method FilterFiles(files: seq<FileInfo>, query: string) returns (filtered: seq<FileInfo>)
    ensures query == [] ==> filtered == files
    ensures filtered == Matching(files, query)
  {
    if query == [] {
      MatchingEmptyQuery(files);
      return files;
    }
    filtered := [];
    for k := 0 to |files|
      invariant filtered == Matching(files[..k], query)
    {
      assert files[..k + 1][..k] == files[..k];
      if Matches(files[k], query) {
        filtered := filtered + [files[k]];
      }
    }
    assert files[..|files|] == files;
  }

  /** The empty query keeps every entry. */
  lemma {:induction false} MatchingEmptyQuery(files: seq<FileInfo>)
    ensures Matching(files, "") == files
    decreases |files|
  {
    if files != [] {
      MatchingEmptyQuery(files[..|files| - 1]);
      EmptyQueryMatches(files[|files| - 1]);
    }
  }

  /** Filtering distributes over concatenation. */
  lemma {:induction false} MatchingAppend(a: seq<FileInfo>, b: seq<FileInfo>, query: string)
    ensures Matching(a + b, query) == Matching(a, query) + Matching(b, query)
    decreases |b|
  {
    if b == [] {
      assert a + b == a;
    } else {
      var b', y := b[..|b| - 1], b[|b| - 1];
      assert (a + b)[..|a + b| - 1] == a + b';
      MatchingAppend(a, b', query);
    }
  }

  /** An entry is kept exactly when it is in the list and matches. */
  lemma {:induction false} MatchingMembers(files: seq<FileInfo>, query: string)
    ensures forall f :: f in Matching(files, query) <==> f in files && Matches(f, query)
    decreases |files|
  {
    if files != [] {
      var init, last := files[..|files| - 1], files[|files| - 1];
      MatchingMembers(init, query);
      assert files == init + [last];
    }
  }

  /** The indices of the matching entries of `files[from..]`, in increasing order. */
  function MatchIndices(files: seq<FileInfo>, query: string, from: nat): (idx: seq<nat>)
    ensures forall k :: 0 <= k < |idx| ==> from <= idx[k] < |files|
    decreases |files| - from
  {
    if from >= |files| then []
    else (if Matches(files[from], query) then [from] else []) + MatchIndices(files, query, from + 1)
  }

  /** The listed indices increase strictly and pick matching entries. */
  lemma {:induction false} MatchIndicesSound(files: seq<FileInfo>, query: string, from: nat)
    ensures forall k :: 0 <= k < |MatchIndices(files, query, from)| ==>
              Matches(files[MatchIndices(files, query, from)[k]], query)
    ensures forall k, l :: 0 <= k < l < |MatchIndices(files, query, from)| ==>
              MatchIndices(files, query, from)[k] < MatchIndices(files, query, from)[l]
    decreases |files| - from
  {
    if from < |files| {
      MatchIndicesSound(files, query, from + 1);
      var head: seq<nat> := if Matches(files[from], query) then [from] else [];
      var rest := MatchIndices(files, query, from + 1);
      var idx := head + rest;
      assert idx == MatchIndices(files, query, from);
      forall k | 0 <= k < |idx| ensures Matches(files[idx[k]], query) {
        if k >= |head| {
          assert idx[k] == rest[k - |head|];
          assert Matches(files[rest[k - |head|]], query);
        } else {
          assert idx[k] == head[k] == from;
          assert Matches(files[from], query);
        }
      }
      forall k, l | 0 <= k < l < |idx| ensures idx[k] < idx[l] {
        assert idx[l] == rest[l - |head|];
        if k >= |head| { assert idx[k] == rest[k - |head|]; } else { assert idx[k] == head[k] == from; }
      }
    }
  }

  /** Every matching index from `from` on is listed. */
  lemma {:induction false} MatchIndicesComplete(files: seq<FileInfo>, query: string, from: nat)
    ensures forall i :: from <= i < |files| && Matches(files[i], query) ==> i in MatchIndices(files, query, from)
    decreases |files| - from
  {
    if from < |files| {
      MatchIndicesComplete(files, query, from + 1);
    }
  }

  /** The filter of `files[from..]` lists the entries at those indices, in that order. */
  lemma {:induction false} MatchingAtIndices(files: seq<FileInfo>, query: string, from: nat)
    requires from <= |files|
    ensures |Matching(files[from..], query)| == |MatchIndices(files, query, from)|
    ensures forall k :: 0 <= k < |MatchIndices(files, query, from)| ==>
              Matching(files[from..], query)[k] == files[MatchIndices(files, query, from)[k]]
    decreases |files| - from
  {
    if from == |files| {
      assert files[from..] == [];
    } else {
      MatchingAtIndices(files, query, from + 1);
      assert files[from..] == [files[from]] + files[from + 1..];
      MatchingAppend([files[from]], files[from + 1..], query);
      assert Matching([files[from]], query) == (if Matches(files[from], query) then [files[from]] else []) by {
        assert [files[from]][..0] == [];
      }
    }
  }

  /**
   * The filter result is exactly the order-preserving subsequence of the matching
   * entries: it lists `files[i]` for the matching indices `i`, in increasing order.
   */
  lemma MatchingIsMatchSubsequence(files: seq<FileInfo>, query: string)
    ensures forall k :: 0 <= k < |MatchIndices(files, query, 0)| ==>
              Matches(files[MatchIndices(files, query, 0)[k]], query)
    ensures forall k, l :: 0 <= k < l < |MatchIndices(files, query, 0)| ==>
              MatchIndices(files, query, 0)[k] < MatchIndices(files, query, 0)[l]
    ensures forall i :: 0 <= i < |files| && Matches(files[i], query) ==> i in MatchIndices(files, query, 0)
    ensures |Matching(files, query)| == |MatchIndices(files, query, 0)|
    ensures forall k :: 0 <= k < |Matching(files, query)| ==>
              Matching(files, query)[k] == files[MatchIndices(files, query, 0)[k]]
  {
    MatchIndicesSound(files, query, 0);
    MatchIndicesComplete(files, query, 0);
    MatchingAtIndices(files, query, 0);
    assert files[0..] == files;
  }

  /** Filtering an already filtered list with the same query changes nothing. */
  lemma {:induction false} MatchingIdempotent(files: seq<FileInfo>, query: string)
    ensures Matching(Matching(files, query), query) == Matching(files, query)
    decreases |files|
  {
    if files != [] {
      var init, last := files[..|files| - 1], files[|files| - 1];
      MatchingIdempotent(init, query);
      var tail := if Matches(last, query) then [last] else [];
      MatchingAppend(Matching(init, query), tail, query);
      if Matches(last, query) {
        assert Matching(tail, query) == tail by { assert tail[..0] == []; }
      }
    }
  }

  /** The first entry of `all` that matches `query`, or `None`. */
  function FirstMatch(all: seq<FileInfo>, query: string): Option<FileInfo>
    decreases |all|
  {
    if all == [] then None
    else if Matches(all[0], query) then Some(all[0])
    else FirstMatch(all[1..], query)
  }

  /**
   * `FindBestMatch`: scan directories, then files, then hidden files, and stop at the
   * first entry that matches.
   */
  method FindBestMatch(directories: seq<FileInfo>, files: seq<FileInfo>, hiddenFiles: seq<FileInfo>,
                       query: string) returns (bestMatch: Option<FileInfo>)
    ensures bestMatch == FirstMatch(directories + files + hiddenFiles, query)
  {
    var allFiles := directories + (files + hiddenFiles);
    assert allFiles == directories + files + hiddenFiles;
    bestMatch := None;
    var k := 0;
    while k < |allFiles|
      invariant 0 <= k <= |allFiles|
      invariant FirstMatch(allFiles[k..], query) == FirstMatch(allFiles, query)
    {
      if Matches(allFiles[k], query) {
        bestMatch := Some(allFiles[k]);
        break;
      }
      assert allFiles[k..][1..] == allFiles[k + 1..];
      k := k + 1;
    }
  }

  /**
   * `FirstMatch` returns `None` exactly when nothing matches; otherwise it returns the
   * entry at the smallest matching index.
   */
  lemma {:induction false} FirstMatchSpec(all: seq<FileInfo>, query: string)
    ensures FirstMatch(all, query).None? <==> forall i :: 0 <= i < |all| ==> !Matches(all[i], query)
    ensures FirstMatch(all, query).Some? ==>
      exists i :: 0 <= i < |all| && all[i] == FirstMatch(all, query).value && Matches(all[i], query) &&
        forall j :: 0 <= j < i ==> !Matches(all[j], query)
    decreases |all|
  {
    if all != [] && !Matches(all[0], query) {
      FirstMatchSpec(all[1..], query);
      if FirstMatch(all[1..], query).Some? {
        var i :| 0 <= i < |all[1..]| && all[1..][i] == FirstMatch(all[1..], query).value &&
          Matches(all[1..][i], query) && forall j :: 0 <= j < i ==> !Matches(all[1..][j], query);
        assert forall j :: 0 <= j < i + 1 ==> !Matches(all[j], query) by {
          forall j | 0 <= j < i + 1 ensures !Matches(all[j], query) {
            if j > 0 { assert all[j] == all[1..][j - 1]; }
          }
        }
        assert all[i + 1] == all[1..][i];
      } else {
        forall i | 0 <= i < |all| ensures !Matches(all[i], query) {
          if i > 0 { assert all[i] == all[1..][i - 1]; }
        }
      }
    }
  }

  /** With the empty query every entry matches, so the pick is the very first entry. */
  lemma EmptyQueryPicksFirst(all: seq<FileInfo>)
    requires all != []
    ensures FirstMatch(all, "") == Some(all[0])
  {
    EmptyQueryMatches(all[0]);
  }

  /** The first match of a concatenation is the first match of its left part, if any. */
  lemma {:induction false} FirstMatchAppend(a: seq<FileInfo>, b: seq<FileInfo>, query: string)
    ensures FirstMatch(a + b, query) ==
      if FirstMatch(a, query).Some? then FirstMatch(a, query) else FirstMatch(b, query)
    decreases |a|
  {
    if a == [] {
      assert a + b == b;
    } else {
      assert (a + b)[1..] == a[1..] + b;
      FirstMatchAppend(a[1..], b, query);
    }
  }

  /** Dropping the entries that do not match never changes the first match. */
  lemma {:induction false} FirstMatchOfMatching(all: seq<FileInfo>, query: string)
    ensures FirstMatch(Matching(all, query), query) == FirstMatch(all, query)
    decreases |all|
  {
    if all != [] {
      assert all == [all[0]] + all[1..];
      MatchingAppend([all[0]], all[1..], query);
      assert Matching([all[0]], query) == (if Matches(all[0], query) then [all[0]] else []) by {
        assert [all[0]][..0] == [];
      }
      FirstMatchOfMatching(all[1..], query);
      FirstMatchAppend(Matching([all[0]], query), Matching(all[1..], query), query);
    }
  }

  /**
   * The directory reader filters both lists before picking the best match: the pick is
   * the one the unfiltered lists would give.
   */
  lemma PrefilterKeepsBestMatch(directories: seq<FileInfo>, files: seq<FileInfo>, query: string)
    ensures FirstMatch(Matching(directories, query) + Matching(files, query) + [], query) ==
            FirstMatch(directories + files + [], query)
  {
    MatchingAppend(directories, files, query);
    assert Matching(directories, query) + Matching(files, query) + [] == Matching(directories + files, query);
    assert directories + files + [] == directories + files;
    FirstMatchOfMatching(directories + files, query);
  }
}
