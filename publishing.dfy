/**
 * The diagnostics publisher: an insertion-ordered map from a file's uri to the
 * issues found in it, with every call it makes to its two reporter functions
 * recorded in order (a batch `{uri, issues}` to the reporter, a single
 * `{uri, issue}` to the stream reporter).
 */
module Publishing {
  import opened Wrappers
  import opened OrderedMaps
  import opened Issues

  /** Node's `path.isAbsolute` and `path.join`, and `vscode.Uri.file(p).toString()`. */
  datatype PathOps = PathOps(
    isAbsolute: string -> bool,
    join: (string, string) -> string,
    fileUri: string -> string)

  /** The uri under which an issue about `file`, found under the workspace folder `root`, is filed. */
  function UriOf(ops: PathOps, file: string, root: string): string {
    ops.fileUri(if ops.isAbsolute(file) then file else ops.join(root, file))
  }

  /** An absolute file's uri does not depend on the workspace folder. */
  lemma AbsoluteUriIgnoresRoot(ops: PathOps, file: string, root1: string, root2: string)
    requires ops.isAbsolute(file)
    ensures UriOf(ops, file, root1) == UriOf(ops, file, root2) == ops.fileUri(file)
  {
  }

  /** A call `reporter({uri, issues})`. */
  datatype Batch = Batch(uri: string, issues: seq<IssueRecord>)

  /** A call `reporterStream({uri, issue})`. */
  datatype Streamed = Streamed(uri: string, issue: IssueRecord)

  type ByFile = OrderedMap<seq<IssueRecord>>

  /** The list stored under `uri`, or none. */
  function ListOf(m: ByFile, uri: string): seq<IssueRecord> {
    Get(m, uri).GetOr([])
  }

  /** The map after `issue` is filed under `uri`: appended to its list, which is
      created at the end of the order if the uri is new; nothing else changes. */
  function AddTo(m: ByFile, s: Streamed): (r: ByFile)
    requires m.Valid()
    ensures r.Valid()
    ensures ListOf(r, s.uri) == ListOf(m, s.uri) + [s.issue]
    ensures forall u :: u != s.uri ==> ListOf(r, u) == ListOf(m, u)
    ensures forall u :: u in r.entries <==> u in m.entries || u == s.uri
    ensures r.keys == if s.uri in m.entries then m.keys else m.keys + [s.uri]
  {
    Set(m, s.uri, ListOf(m, s.uri) + [s.issue])
  }

  /** The map after a sequence of `addIssue` calls, one per element of `adds`. */
  function AddAll(m: ByFile, adds: seq<Streamed>): (r: ByFile)
    requires m.Valid()
    ensures r.Valid()
  {
    if |adds| == 0 then m else AddTo(AddAll(m, adds[..|adds| - 1]), adds[|adds| - 1])
  }

  /** Adding two runs of issues one after the other is adding them all. */
  lemma {:induction false} AddAllConcat(m: ByFile, xs: seq<Streamed>, ys: seq<Streamed>)
    requires m.Valid()
    ensures AddAll(m, xs + ys) == AddAll(AddAll(m, xs), ys)
    decreases |ys|
  {
    if |ys| == 0 {
      assert xs + ys == xs;
    } else {
      var init, y := ys[..|ys| - 1], ys[|ys| - 1];
      assert ys == init + [y];
      assert xs + ys == (xs + init) + [y];
      AddAllConcat(m, xs, init);
      AddAllSnoc(m, xs + init, y);
      AddAllSnoc(AddAll(m, xs), init, y);
    }
  }

  lemma AddAllSnoc(m: ByFile, adds: seq<Streamed>, s: Streamed)
    requires m.Valid()
    ensures AddAll(m, adds + [s]) == AddTo(AddAll(m, adds), s)
  {
    assert (adds + [s])[..|adds|] == adds;
  }

  /** The issues of `adds` filed under `uri`, in order. */
  function IssuesFor(adds: seq<Streamed>, uri: string): seq<IssueRecord> {
    if |adds| == 0 then []
    else
      var last := adds[|adds| - 1];
      IssuesFor(adds[..|adds| - 1], uri) + (if last.uri == uri then [last.issue] else [])
  }

  /** After a sequence of additions, every uri's list is its old list followed by
      exactly the issues added under it, in the order they were added. */
  lemma {:induction false} AddAllLists(m: ByFile, adds: seq<Streamed>, uri: string)
    requires m.Valid()
    ensures ListOf(AddAll(m, adds), uri) == ListOf(m, uri) + IssuesFor(adds, uri)
  {
    if |adds| > 0 {
      AddAllLists(m, adds[..|adds| - 1], uri);
    }
  }

  /** Additions never move a uri that is already there: the old order is a prefix of the new. */
  lemma {:induction false} AddAllKeepsOrder(m: ByFile, adds: seq<Streamed>)
    requires m.Valid()
    ensures m.keys <= AddAll(m, adds).keys
  {
    if |adds| > 0 {
      AddAllKeepsOrder(m, adds[..|adds| - 1]);
    }
  }

  /** An issue added since its uri was last removed is in the list for that uri. */
  lemma AddedIssueIsListed(m: ByFile, adds: seq<Streamed>, i: nat)
    requires m.Valid() && i < |adds|
    ensures adds[i].issue in ListOf(AddAll(m, adds), adds[i].uri)
  {
    AddAllLists(m, adds, adds[i].uri);
    IssuesForContains(adds, i);
  }

  lemma {:induction false} IssuesForContains(adds: seq<Streamed>, i: nat)
    requires i < |adds|
    ensures adds[i].issue in IssuesFor(adds, adds[i].uri)
  {
    if i < |adds| - 1 {
      assert adds[..|adds| - 1][i] == adds[i];
      IssuesForContains(adds[..|adds| - 1], i);
    }
  }

  /** One empty batch per uri of `ks`, in order: what clearing those uris reports. */
  function EmptyBatches(ks: seq<string>): (r: seq<Batch>)
    ensures |r| == |ks|
    ensures forall i :: 0 <= i < |ks| ==> r[i] == Batch(ks[i], [])
  {
    seq(|ks|, i requires 0 <= i < |ks| => Batch(ks[i], []))
  }

  /** One batch per uri of `ks` holding that uri's current list: what `flush` reports. */
  function Snapshot(m: ByFile, ks: seq<string>): (r: seq<Batch>)
    requires forall k :: k in ks ==> k in m.entries
    ensures |r| == |ks|
    ensures forall i :: 0 <= i < |ks| ==> r[i] == Batch(ks[i], m.entries[ks[i]])
  {
    seq(|ks|, i requires 0 <= i < |ks| => Batch(ks[i], m.entries[ks[i]]))
  }

  /** A flush right after a clear reports nothing. */
  lemma SnapshotOfEmpty()
    ensures var m: ByFile := Empty(); Snapshot(m, m.keys) == []
  {
  }

  /** A flush reports every issue that is on file, under its uri. */
  lemma SnapshotHasEveryIssue(m: ByFile, uri: string, issue: IssueRecord)
    requires m.Valid() && issue in ListOf(m, uri)
    ensures exists b :: b in Snapshot(m, m.keys) && b.uri == uri && issue in b.issues
  {
    var i :| 0 <= i < |m.keys| && m.keys[i] == uri;
    assert Snapshot(m, m.keys)[i] == Batch(uri, m.entries[uri]);
  }

  /** The predicate that rejects what `p` accepts. */
  function Not(p: string -> bool): string -> bool {
    (x: string) => !p(x)
  }

  /** Deleting one key from a sequence of distinct keys that holds it once, at position `i`. */
  lemma {:induction false} WithoutAt(ks: seq<string>, i: nat)
    requires i < |ks| && Distinct(ks)
    ensures Without(ks, ks[i]) == ks[..i] + ks[i + 1..]
  {
    if i == 0 {
      TailDistinct(ks);
      WithoutAbsent(ks[1..], ks[0]);
    } else {
      TailDistinct(ks);
      WithoutAt(ks[1..], i - 1);
      assert ks[1..][i - 1] == ks[i];
      assert ks[..i] == [ks[0]] + ks[1..][..i - 1];
      assert ks[i + 1..] == ks[1..][i..];
    }
  }

  lemma EmptyBatchesAppend(ks: seq<string>, k: string)
    ensures EmptyBatches(ks + [k]) == EmptyBatches(ks) + [Batch(k, [])]
  {
  }

  /** One step of `clearUriMatch`'s loop over the keys `ks` it started with: the
      keys left after visiting `ks[i]`, and the uris reported so far. */
  lemma ClearStep(ks: seq<string>, i: nat, p: string -> bool)
    requires i < |ks| && Distinct(Filter(ks[..i], Not(p)) + ks[i..])
    ensures ks[..i + 1] == ks[..i] + [ks[i]]
    ensures p(ks[i]) ==> Without(Filter(ks[..i], Not(p)) + ks[i..], ks[i]) == Filter(ks[..i + 1], Not(p)) + ks[i + 1..]
    ensures !p(ks[i]) ==> Filter(ks[..i], Not(p)) + ks[i..] == Filter(ks[..i + 1], Not(p)) + ks[i + 1..]
    ensures EmptyBatches(Filter(ks[..i + 1], p))
         == EmptyBatches(Filter(ks[..i], p)) + (if p(ks[i]) then [Batch(ks[i], [])] else [])
  {
    var uri := ks[i];
    var kept := Filter(ks[..i], Not(p));
    assert ks[..i + 1] == ks[..i] + [uri];
    FilterAppend(ks[..i], uri, p);
    FilterAppend(ks[..i], uri, Not(p));
    assert ks[i..] == [uri] + ks[i + 1..];
    if p(uri) {
      EmptyBatchesAppend(Filter(ks[..i], p), uri);
      var at := |kept|;
      assert (kept + ks[i..])[at] == uri;
      WithoutAt(kept + ks[i..], at);
      assert (kept + ks[i..])[..at] == kept;
      assert (kept + ks[i..])[at + 1..] == ks[i + 1..];
    } else {
      assert kept + ks[i..] == kept + [uri] + ks[i + 1..];
    }
  }

  /** A map whose order is the filtered order of `m0` and whose lists are `m0`'s is `m0` restricted. */
  lemma RestrictOf(m0: ByFile, m: ByFile, p: string -> bool)
    requires m0.Valid() && m.Valid()
    requires m.keys == Filter(m0.keys, p)
    requires forall k :: k in m.entries ==> k in m0.entries && m.entries[k] == m0.entries[k]
    ensures m == Restrict(m0, p)
  {
    assert m.entries == Restrict(m0, p).entries;
  }

  class DiagnosticsPublisher {
    /** `byFile`: uri to the issues filed under it, in first-insertion order. */
    var byFile: ByFile
    /** The calls made to `reporter`, in order. */
    var reported: seq<Batch>
    /** The calls made to `reporterStream`, in order. */
    var streamed: seq<Streamed>
    const paths: PathOps

    ghost predicate Valid()
      reads this
    {
      byFile.Valid()
    }

    constructor (paths: PathOps)
      ensures Valid()
      ensures byFile == Empty() && reported == [] && streamed == []
      ensures this.paths == paths
    {
      byFile := Empty();
      reported := [];
      streamed := [];
      this.paths := paths;
    }

    /** `dispose`: forget every entry without reporting anything. */
    method Dispose()
      modifies this
      ensures Valid()
      ensures byFile == Empty()
      ensures reported == old(reported) && streamed == old(streamed)
    {
      byFile := Empty();
    }

    /** `clear`: report an empty list for each tracked uri, in map order, then forget them all. */
    method Clear()
      requires Valid()
      modifies this
      ensures Valid()
      ensures byFile == Empty()
      ensures reported == old(reported) + EmptyBatches(old(byFile).keys)
      ensures streamed == old(streamed)
    {
      var ks := byFile.keys;
      var i := 0;
      while i < |ks|
        invariant 0 <= i <= |ks|
        invariant byFile == old(byFile) && streamed == old(streamed)
        invariant reported == old(reported) + EmptyBatches(ks[..i])
      {
        assert EmptyBatches(ks[..i + 1]) == EmptyBatches(ks[..i]) + [Batch(ks[i], [])];
        reported := reported + [Batch(ks[i], [])];
        i := i + 1;
      }
      assert ks[..i] == ks;
      byFile := Empty();
    }

    /** `clearUriMatch(pattern)`: for each tracked uri the pattern accepts, in map
        order, report an empty list and delete it; the other entries keep their
        lists and their order. */
    method ClearUriMatch(pattern: string -> bool)
      requires Valid()
      modifies this
      ensures Valid()
      ensures byFile == Restrict(old(byFile), Not(pattern))
      ensures reported == old(reported) + EmptyBatches(Filter(old(byFile).keys, pattern))
      ensures streamed == old(streamed)
    {
      var m0 := byFile;
      var ks := m0.keys;
      var m := m0;
      var sent := [];
      var i := 0;
      while i < |ks|
        invariant 0 <= i <= |ks|
        invariant unchanged(this)
        invariant m.Valid()
        invariant m.keys == Filter(ks[..i], Not(pattern)) + ks[i..]
        invariant forall k :: k in m.entries ==> k in m0.entries && m.entries[k] == m0.entries[k]
        invariant sent == EmptyBatches(Filter(ks[..i], pattern))
      {
        var uri := ks[i];
        ClearStep(ks, i, pattern);
        if pattern(uri) {
          sent := sent + [Batch(uri, [])];
          m := Delete(m, uri);
        }
        i := i + 1;
      }
      assert ks[..i] == ks && ks[i..] == [];
      RestrictOf(m0, m, Not(pattern));
      byFile := m;
      reported := reported + sent;
    }

    /** `addIssue(issue, folder)`: append the issue to its uri's list, creating the
        list if absent, then stream it once. */
    method AddIssue(issue: IssueRecord, root: string)
      requires Valid()
      modifies this
      ensures Valid()
      ensures byFile == AddTo(old(byFile), Streamed(UriOf(paths, issue.file, root), issue))
      ensures streamed == old(streamed) + [Streamed(UriOf(paths, issue.file, root), issue)]
      ensures reported == old(reported)
    {
      var filePath := if paths.isAbsolute(issue.file) then issue.file else paths.join(root, issue.file);
      var uri := paths.fileUri(filePath);
      var list := Get(byFile, uri).GetOr([]);
      list := list + [issue];
      byFile := Set(byFile, uri, list);
      streamed := streamed + [Streamed(uri, issue)];
    }

    /** `flush`: report each tracked uri's full list, in map order, changing nothing. */
    method Flush()
      requires Valid()
      modifies this
      ensures Valid()
      ensures byFile == old(byFile) && streamed == old(streamed)
      ensures reported == old(reported) + Snapshot(byFile, byFile.keys)
    {
      var ks := byFile.keys;
      var i := 0;
      while i < |ks|
        invariant 0 <= i <= |ks|
        invariant byFile == old(byFile) && streamed == old(streamed)
        invariant reported == old(reported) + Snapshot(byFile, ks[..i])
      {
        assert Snapshot(byFile, ks[..i + 1])
            == Snapshot(byFile, ks[..i]) + [Batch(ks[i], byFile.entries[ks[i]])];
        reported := reported + [Batch(ks[i], byFile.entries[ks[i]])];
        i := i + 1;
      }
      assert ks[..i] == ks;
    }
  }
}
