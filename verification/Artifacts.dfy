// The rendered outputs a seal lists: read from disk under the names a request gives
// and sorted by path, so that the seal does not depend on the request's order.
module Artifacts {
  import opened Text

  datatype Kind = Master | Subtitles | Cover | QaReport | OtherKind

  /** A file's bytes; a sealed review report is one the service parses. */
  datatype Content = Raw(text: string) | ReviewJson(review: Review)

  datatype Review = Review(run: string, master: Content, passes: bool)

  /** One entry of a seal request. */
  datatype Output = Output(path: string, kind: Kind, media: string)

  /** Its digest and size stand for the bytes. */
  datatype Artifact = Artifact(output: Output, bytes: Content)

  function OfKind(artifacts: seq<Artifact>, kind: Kind): seq<Artifact> {
    if artifacts == [] then []
    else
      OfKind(artifacts[..|artifacts| - 1], kind)
      + (if artifacts[|artifacts| - 1].output.kind == kind then [artifacts[|artifacts| - 1]] else [])
  }

  function Masters(outputs: seq<Output>): nat {
    if outputs == [] then 0
    else Masters(outputs[..|outputs| - 1]) + (if outputs[|outputs| - 1].kind == Master then 1 else 0)
  }

  /** What the request model refuses before the service sees it. */
  predicate ValidRequest(outputs: seq<Output>) {
    && 1 <= |outputs| <= 50 && Masters(outputs) == 1
    && forall i, j :: 0 <= i < j < |outputs| ==> outputs[i].path != outputs[j].path
  }

  predicate Readable(disk: map<string, Content>, outputs: seq<Output>) {
    forall i :: 0 <= i < |outputs| ==> outputs[i].path in disk && disk[outputs[i].path] != Raw("")
  }

  function ReadAll(disk: map<string, Content>, outputs: seq<Output>): (artifacts: seq<Artifact>)
    requires Readable(disk, outputs)
    ensures |artifacts| == |outputs|
    ensures forall i :: 0 <= i < |outputs| ==> artifacts[i] == Artifact(outputs[i], disk[outputs[i].path])
  {
    if outputs == [] then []
    else
      var last := outputs[|outputs| - 1];
      ReadAll(disk, outputs[..|outputs| - 1]) + [Artifact(last, disk[last.path])]
  }

  // ------------------------------------------------------------- in path order

  predicate Ascends(artifacts: seq<Artifact>) {
    forall i, j :: 0 <= i < j < |artifacts| ==> Precedes(artifacts[i].output.path, artifacts[j].output.path)
  }

  /** Behind everything that does not sort after it. */
  function Insert(sorted: seq<Artifact>, a: Artifact): seq<Artifact> {
    if sorted != [] && Precedes(a.output.path, sorted[|sorted| - 1].output.path)
    then Insert(sorted[..|sorted| - 1], a) + [sorted[|sorted| - 1]]
    else sorted + [a]
  }

  /** list.sort(key=relative_path), stable. */
  function ByPath(artifacts: seq<Artifact>): seq<Artifact> {
    if artifacts == [] then [] else Insert(ByPath(artifacts[..|artifacts| - 1]), artifacts[|artifacts| - 1])
  }

  lemma {:induction false} InsertHolds(sorted: seq<Artifact>, a: Artifact)
    ensures |Insert(sorted, a)| == |sorted| + 1
    ensures forall x :: x in Insert(sorted, a) <==> x in sorted || x == a
  {
    if sorted != [] {
      InsertHolds(sorted[..|sorted| - 1], a);
      assert sorted == sorted[..|sorted| - 1] + [sorted[|sorted| - 1]];
    }
  }

  lemma {:induction false} InsertAscends(sorted: seq<Artifact>, a: Artifact)
    requires Ascends(sorted) && forall i :: 0 <= i < |sorted| ==> sorted[i].output.path != a.output.path
    ensures Ascends(Insert(sorted, a))
  {
    if sorted != [] {
      var front, last := sorted[..|sorted| - 1], sorted[|sorted| - 1];
      if Precedes(a.output.path, last.output.path) {
        InsertAscends(front, a);
        InsertHolds(front, a);
        var all := Insert(front, a);
        forall i | 0 <= i < |all| ensures Precedes(all[i].output.path, last.output.path) {
          assert all[i] in all;
        }
      } else {
        PrecedesTotal(a.output.path, last.output.path);
        forall i | 0 <= i < |front| ensures Precedes(sorted[i].output.path, a.output.path) {
          PrecedesTransitive(sorted[i].output.path, last.output.path, a.output.path);
        }
      }
    }
  }

  predicate DistinctPaths(artifacts: seq<Artifact>) {
    forall i, j :: 0 <= i < j < |artifacts| ==> artifacts[i].output.path != artifacts[j].output.path
  }

  lemma {:induction false} ByPathHolds(artifacts: seq<Artifact>)
    ensures |ByPath(artifacts)| == |artifacts|
    ensures forall x :: x in ByPath(artifacts) <==> x in artifacts
  {
    if artifacts != [] {
      var front, last := artifacts[..|artifacts| - 1], artifacts[|artifacts| - 1];
      ByPathHolds(front);
      InsertHolds(ByPath(front), last);
      assert artifacts == front + [last];
    }
  }

  lemma {:induction false} ByPathAscends(artifacts: seq<Artifact>)
    requires DistinctPaths(artifacts)
    ensures Ascends(ByPath(artifacts))
  {
    if artifacts != [] {
      var front, last := artifacts[..|artifacts| - 1], artifacts[|artifacts| - 1];
      ByPathAscends(front);
      ByPathHolds(front);
      var sorted := ByPath(front);
      forall i | 0 <= i < |sorted| ensures sorted[i].output.path != last.output.path {
        assert sorted[i] in front;
        var k :| 0 <= k < |front| && front[k] == sorted[i];
      }
      InsertAscends(sorted, last);
    }
  }

  lemma {:induction false} ByPathSorts(artifacts: seq<Artifact>)
    requires DistinctPaths(artifacts)
    ensures Ascends(ByPath(artifacts)) && |ByPath(artifacts)| == |artifacts|
    ensures forall x :: x in ByPath(artifacts) <==> x in artifacts
  {
    ByPathHolds(artifacts);
    ByPathAscends(artifacts);
  }

  lemma LastIsGreatest(s: seq<Artifact>, x: Artifact)
    requires Ascends(s) && x in s
    ensures x == s[|s| - 1] || Precedes(x.output.path, s[|s| - 1].output.path)
  {
  }

  lemma HasFirst(s: seq<Artifact>)
    ensures s != [] ==> exists x :: x in s
  {
    assert s != [] ==> s[0] in s;
  }

  /** Path order leaves one arrangement: the same artifacts in path order are the same list. */
  lemma {:induction false} OneArrangement(s: seq<Artifact>, t: seq<Artifact>)
    requires Ascends(s) && Ascends(t) && forall x :: x in s <==> x in t
    ensures s == t
  {
    HasFirst(s);
    HasFirst(t);
    if s != [] {
      var a, b := s[|s| - 1], t[|t| - 1];
      assert a in s && b in t;
      LastIsGreatest(s, b);
      LastIsGreatest(t, a);
      if a != b {
        PrecedesTransitive(a.output.path, b.output.path, a.output.path);
        PrecedesItself(a.output.path);
      }
      assert a == b;
      var front, front' := s[..|s| - 1], t[..|t| - 1];
      FrontHolds(s, front);
      FrontHolds(t, front');
      OneArrangement(front, front');
    }
  }

  lemma FrontHolds(s: seq<Artifact>, front: seq<Artifact>)
    requires s != [] && Ascends(s) && front == s[..|s| - 1]
    ensures Ascends(front)
    ensures forall x :: x in front <==> x in s && x != s[|s| - 1]
  {
    PrecedesItself(s[|s| - 1].output.path);
  }

  // --------------------------------------------------------- reading for a seal

  predicate HasPath(disk: map<string, Content>, a: Artifact) {
    a.output.path in disk && disk[a.output.path] == a.bytes
  }

  lemma {:induction false} SortedReadHolds(disk: map<string, Content>, outputs: seq<Output>)
    requires ValidRequest(outputs) && Readable(disk, outputs)
    ensures var sorted := ByPath(ReadAll(disk, outputs));
            && Ascends(sorted) && |sorted| == |outputs|
            && forall a: Artifact :: a in sorted <==> a.output in outputs && HasPath(disk, a)
  {
    var read := ReadAll(disk, outputs);
    ByPathSorts(read);
    forall a: Artifact ensures a in read <==> a.output in outputs && HasPath(disk, a) {
      if a.output in outputs && HasPath(disk, a) {
        var i :| 0 <= i < |outputs| && outputs[i] == a.output;
        assert read[i] == a;
      }
    }
  }

  /** The request names exactly the sealed outputs, in any order. */
  predicate NamesSealed(outputs: seq<Output>, sealed: seq<Artifact>) {
    && (forall i :: 0 <= i < |outputs| ==> exists k :: 0 <= k < |sealed| && sealed[k].output == outputs[i])
    && (forall k :: 0 <= k < |sealed| ==> sealed[k].output in outputs)
  }

  predicate StillThere(disk: map<string, Content>, sealed: seq<Artifact>) {
    forall k :: 0 <= k < |sealed| ==> HasPath(disk, sealed[k])
  }

  lemma {:induction false} SameOutputsSameList(disk: map<string, Content>, outputs: seq<Output>, sealed: seq<Artifact>)
    requires ValidRequest(outputs) && Ascends(sealed) && StillThere(disk, sealed) && NamesSealed(outputs, sealed)
    requires forall k :: 0 <= k < |sealed| ==> sealed[k].bytes != Raw("")
    ensures Readable(disk, outputs) && ByPath(ReadAll(disk, outputs)) == sealed
  {
    forall i | 0 <= i < |outputs| ensures outputs[i].path in disk && disk[outputs[i].path] != Raw("") {
      var k :| 0 <= k < |sealed| && sealed[k].output == outputs[i];
      assert HasPath(disk, sealed[k]);
    }
    SortedReadHolds(disk, outputs);
    forall a: Artifact ensures a in ByPath(ReadAll(disk, outputs)) <==> a in sealed {
      NamedOnDiskIsSealed(disk, outputs, sealed, a);
    }
    OneArrangement(ByPath(ReadAll(disk, outputs)), sealed);
  }

  lemma NamedOnDiskIsSealed(disk: map<string, Content>, outputs: seq<Output>, sealed: seq<Artifact>, a: Artifact)
    requires StillThere(disk, sealed) && NamesSealed(outputs, sealed)
    ensures a.output in outputs && HasPath(disk, a) <==> a in sealed
  {
    if a.output in outputs && HasPath(disk, a) {
      var i :| 0 <= i < |outputs| && outputs[i] == a.output;
      var k :| 0 <= k < |sealed| && sealed[k].output == outputs[i];
      assert HasPath(disk, sealed[k]);
      assert sealed[k] == a;
    }
  }
}
