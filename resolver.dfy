/** findFiles (src/merger.ts:20-45): turn a comma-separated list of literal paths and glob
    patterns into an order-stable list of distinct paths. */
module Resolver {
  import opened Text
  import opened Sequences
  import opened Effects

  /** `patterns.split(',').map((p) => p.trim())`. */
  function Segments(patterns: string): (segs: seq<string>)
    ensures |segs| == |Split(patterns, ',')|
  {
    var pieces := Split(patterns, ',');
    seq(|pieces|, k requires 0 <= k < |pieces| => Trim(pieces[k]))
  }

  /** What one segment contributes: itself when it names an existing regular file,
      otherwise whatever the glob engine matches for it. */
  function Expand(files: Files, glob: (Files, string) -> seq<string>, segment: string): seq<string> {
    if segment in files then [segment] else glob(files, segment)
  }

  /** The per-segment contributions concatenated in segment order (`allFiles`). */
  function Gathered(files: Files, glob: (Files, string) -> seq<string>, segs: seq<string>): seq<string>
    decreases |segs|
  {
    if segs == [] then []
    else Gathered(files, glob, segs[..|segs| - 1]) + Expand(files, glob, segs[|segs| - 1])
  }

  /** The result of findFiles: the gathered paths with duplicates removed. */
  function Found(files: Files, glob: (Files, string) -> seq<string>, patterns: string): (found: seq<string>)
    ensures NoDuplicates(found)
    ensures forall i :: 0 <= i < |found| ==> found[i] in Gathered(files, glob, Segments(patterns))
  {
    Dedup(Gathered(files, glob, Segments(patterns)))
  }

  /** Path p comes from segment seg. */
  predicate Contributes(files: Files, glob: (Files, string) -> seq<string>, seg: string, p: string) {
    p in Expand(files, glob, seg)
  }

  /** A segment naming an existing regular file contributes exactly itself, whatever the
      glob engine would match for it; any other segment contributes its glob matches. */
  lemma ExpandLiteralOrGlob(files: Files, glob: (Files, string) -> seq<string>,
                            glob': (Files, string) -> seq<string>, seg: string, p: string)
    ensures seg in files ==> Expand(files, glob, seg) == Expand(files, glob', seg) == [seg]
    ensures Contributes(files, glob, seg, p) <==> (if seg in files then p == seg else p in glob(files, seg))
  {
  }

  /** A path is gathered exactly when some segment contributes it. */
  lemma {:induction false} GatheredMembers(files: Files, glob: (Files, string) -> seq<string>, segs: seq<string>, p: string)
    ensures p in Gathered(files, glob, segs) <==>
              exists k :: 0 <= k < |segs| && Contributes(files, glob, segs[k], p)
    decreases |segs|
  {
    if segs != [] {
      var init := segs[..|segs| - 1];
      GatheredMembers(files, glob, init, p);
      if p in Gathered(files, glob, init) {
        var k :| 0 <= k < |init| && Contributes(files, glob, init[k], p);
        assert segs[k] == init[k];
      }
      if exists k :: 0 <= k < |segs| && Contributes(files, glob, segs[k], p) {
        var k :| 0 <= k < |segs| && Contributes(files, glob, segs[k], p);
        if k < |init| {
          assert init[k] == segs[k];
        }
      }
    }
  }

  /** Membership of the result of findFiles, in terms of the segments: a segment naming an
      existing regular file contributes exactly itself, any other segment its glob matches. */
  lemma FoundMembers(files: Files, glob: (Files, string) -> seq<string>, patterns: string, p: string)
    ensures p in Found(files, glob, patterns) <==>
              exists k :: 0 <= k < |Segments(patterns)| && Contributes(files, glob, Segments(patterns)[k], p)
  {
    var all := Gathered(files, glob, Segments(patterns));
    DedupMembers(all, p);
    GatheredMembers(files, glob, Segments(patterns), p);
  }

  /** findFiles returns the empty list, and no error, exactly when no segment is an existing
      regular file and no segment's glob matches anything. */
  lemma FoundEmpty(files: Files, glob: (Files, string) -> seq<string>, patterns: string)
    ensures var segs := Segments(patterns);
            Found(files, glob, patterns) == [] <==>
              forall k :: 0 <= k < |segs| ==> segs[k] !in files && glob(files, segs[k]) == []
  {
    var segs := Segments(patterns);
    var found := Found(files, glob, patterns);
    if found != [] {
      FoundMembers(files, glob, patterns, found[0]);
      var k :| 0 <= k < |segs| && Contributes(files, glob, segs[k], found[0]);
      assert segs[k] in files || glob(files, segs[k]) != [];
    } else {
      forall k | 0 <= k < |segs|
        ensures segs[k] !in files && glob(files, segs[k]) == []
      {
        var e := Expand(files, glob, segs[k]);
        if e != [] {
          FoundMembers(files, glob, patterns, e[0]);
          assert Contributes(files, glob, segs[k], e[0]);
        }
      }
    }
  }

  /** findFiles. The loop gathers every segment's contribution, taking a segment that is an
      existing regular file literally and skipping the glob for it; the Set then drops repeats. */
  method FindFiles(fs: FileSystem, glob: (Files, string) -> seq<string>, patterns: string) returns (found: seq<string>)
    ensures found == Found(fs.files, glob, patterns)
    ensures NoDuplicates(found)
  {
    var allFiles: seq<string> := [];
    var patternList := Segments(patterns);
    for i := 0 to |patternList|
      invariant allFiles == Gathered(fs.files, glob, patternList[..i])
    {
      var pattern := patternList[i];
      assert patternList[..i + 1][..i] == patternList[..i];
      if pattern in fs.files {
        allFiles := allFiles + [pattern];
        continue;
      }
      var matches := glob(fs.files, pattern);
      allFiles := allFiles + matches;
    }
    assert patternList[..|patternList|] == patternList;
    found := Dedup(allFiles);
  }

  /** findFiles keeps the paths in the order in which they were first gathered. */
  lemma FoundKeepsFirstSeenOrder(files: Files, glob: (Files, string) -> seq<string>, patterns: string)
    ensures var all := Gathered(files, glob, Segments(patterns));
            var found := Found(files, glob, patterns);
            forall i, j :: 0 <= i < j < |found| ==> FirstIndex(all, found[i]) < FirstIndex(all, found[j])
  {
    DedupKeepsFirstOccurrenceOrder(Gathered(files, glob, Segments(patterns)));
  }

  /** A pattern list without commas is a single segment: the trimmed string. */
  lemma SegmentsWithoutComma(patterns: string)
    requires ',' !in patterns
    ensures Segments(patterns) == [Trim(patterns)]
  {
    var pieces := Split(patterns, ',');
    assert pieces == [patterns];
    var segs := Segments(patterns);
    assert |segs| == 1;
    assert segs[0] == Trim(pieces[0]);
  }

  /** An existing file named by a pattern list without commas is returned alone,
      without consulting the glob engine. */
  lemma SingleLiteralPath(files: Files, glob: (Files, string) -> seq<string>, patterns: string)
    requires ',' !in patterns
    requires Trim(patterns) in files
    ensures Found(files, glob, patterns) == [Trim(patterns)]
  {
    var t := Trim(patterns);
    SegmentsWithoutComma(patterns);
    GatheredSingle(files, glob, t);
    DedupOfDistinct([t]);
  }

  lemma GatheredSingle(files: Files, glob: (Files, string) -> seq<string>, seg: string)
    ensures Gathered(files, glob, [seg]) == Expand(files, glob, seg)
  {
    assert [seg][..0] == [];
  }
}
