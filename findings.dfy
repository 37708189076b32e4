/** Three ways the singleton rescan prints a different entry from the file that was grouped,
    each shown on a concrete listing, and the intended rescan, which only looks at the
    files that were grouped. */
module Findings {
  import opened Pattern
  import opened Groups
  import opened Walker
  import opened TreeProperties

  /** The shapes of the names in the listing below. */
  lemma HashExampleShapes()
    ensures HasDigit("a1") && Shape("a1") == "a#"
    ensures !HasDigit("a#") && Shape("a#") == "a#"
  {
    assert !HasDigit("a") && !HasDigit("") by {
      assert forall k :: 0 <= k < |"a"| ==> "a"[k] == 'a';
    }
    assert !HasDigit("a#") by {
      assert forall k :: 0 <= k < |"a#"| ==> "a#"[k] == 'a' || "a#"[k] == '#';
    }
    assert IsDigit("a1"[1]);
    ShapeOfNumberedName("a", "1", "");
    assert "a" + "1" + "" == "a1" && "a" + "#" + "" == "a#";
    ShapeOfDigitFree("a#");
  }

  /** What both walkers print for the listing below before its group lines. */
  lemma HashExamplePass(p: Platform)
    ensures var es := [Entry("a#", true, File), Entry("a1", true, File)];
      Patterns(p, true, es, 2) == ["a#"] &&
      Pass(p, Readable(es), 2, 0, true) == [Line("", Name("a#"))]
  {
    var es := [Entry("a#", true, File), Entry("a1", true, File)];
    var listing := Readable(es);
    HashExampleShapes();
    assert Standalone(p, true, es[0]) && Grouped(p, true, es[1]);
    PassStep(p, listing, 0, 0, true);
    PassStep(p, listing, 1, 0, true);
  }

  /** A listing with one grouped file prints the line of that file's one-member group. */
  lemma OneGroupLines(p: Platform, es: seq<Entry>, pattern: string)
    ensures GroupLines(p, es, GroupAll([pattern]), "") == GroupLine(p, es, FileGroup(pattern, 1), "")
  {
    GroupAllSnoc([], pattern);
    assert GroupAll([pattern]) == [FileGroup(pattern, 1)];
  }

  /** The group line both walkers print for the listing below. */
  lemma HashExampleGroups(p: Platform)
    ensures var es := [Entry("a#", true, File), Entry("a1", true, File)];
      GroupLines(p, es, GroupAll(["a#"]), "") == [Line("", Name("a#"))]
  {
    var es := [Entry("a#", true, File), Entry("a1", true, File)];
    HashExampleShapes();
    assert RescanCandidate(p, es[0]);
    assert RescanIndex(p, es, "a#") == 0;
    OneGroupLines(p, es, "a#");
  }

  /** A digit-free name containing '#' has the same shape as a numbered name: "a#" is
      printed at once, and the rescan for the singleton group of "a1" finds "a#" first,
      so "a#" is printed twice and "a1" never. Both walkers behave this way. */
  lemma HashNameShadowsSingleton(p: Platform)
    ensures Tree(p, "d", Readable([Entry("a#", true, File), Entry("a1", true, File)]), 0, true) ==
      [Line("", Name("a#")), Line("", Name("a#"))]
  {
    HashExamplePass(p);
    HashExampleGroups(p);
    assert FileIndent(0) == "";
    TreeOfReadable(p, "d", Readable([Entry("a#", true, File), Entry("a1", true, File)]), 0, true);
  }

  /** The shapes of the names in the listing below. */
  lemma ImageExampleShapes()
    ensures HasDigit("img_2") && Shape("img_1") == "img_#" && Shape("img_2") == "img_#"
  {
    var p, q := "img_", "";
    assert !HasDigit(p) && !HasDigit(q) by {
      assert forall k :: 0 <= k < |p| ==> p[k] == 'i' || p[k] == 'm' || p[k] == 'g' || p[k] == '_';
    }
    ShapeOfNumberedName(p, "1", q);
    ShapeOfNumberedName(p, "2", q);
    assert p + "1" + q == "img_1" && p + "2" + q == "img_2" && p + "#" + q == "img_#";
    assert IsDigit("img_2"[4]);
  }

  /** A subdirectory one level down with no visible entries prints its header only. (A real
      Windows directory lists "." and "..", which are hidden, so it prints the same.) */
  lemma EmptySubdirectory(p: Platform, name: string)
    ensures Tree(p, name, Readable([]), 1, true) == [Line("  ", DirHeader(name))]
  {
    assert Spaces(2) == "  ";
    TreeOfReadable(p, name, Readable([]), 1, true);
  }

  /** What both walkers print for the listing below before its group lines. */
  lemma ImageExamplePass(p: Platform)
    ensures var es := [Entry("img_1", true, Dir(Readable([]))), Entry("img_2", true, File)];
      Patterns(p, true, es, 2) == ["img_#"] &&
      Pass(p, Readable(es), 2, 0, true) == [Line("  ", DirHeader("img_1"))]
  {
    var es := [Entry("img_1", true, Dir(Readable([]))), Entry("img_2", true, File)];
    var listing := Readable(es);
    ImageExampleShapes();
    EmptySubdirectory(p, "img_1");
    assert !Hidden(p, es[0].name) && IsDirectory(p, es[0]) && Grouped(p, true, es[1]);
    PassStep(p, listing, 0, 0, true);
    PassStep(p, listing, 1, 0, true);
  }

  /** The group line each walker prints for the listing below. */
  lemma ImageExampleGroups(p: Platform)
    ensures var es := [Entry("img_1", true, Dir(Readable([]))), Entry("img_2", true, File)];
      GroupLines(p, es, GroupAll(["img_#"]), "") == [Line("", Name(if p == Posix then "img_1" else "img_2"))]
  {
    var es := [Entry("img_1", true, Dir(Readable([]))), Entry("img_2", true, File)];
    ImageExampleShapes();
    assert RescanIndex(p, es, "img_#") == if p == Posix then 0 else 1;
    OneGroupLines(p, es, "img_#");
  }

  /** What each walker prints for the listing below. */
  lemma ImageExampleTree(p: Platform)
    ensures var es := [Entry("img_1", true, Dir(Readable([]))), Entry("img_2", true, File)];
      Tree(p, "d", Readable(es), 0, true) ==
        [Line("  ", DirHeader("img_1")), Line("", Name(if p == Posix then "img_1" else "img_2"))]
  {
    var es := [Entry("img_1", true, Dir(Readable([]))), Entry("img_2", true, File)];
    ImageExamplePass(p);
    ImageExampleGroups(p);
    assert FileIndent(0) == "";
    TreeOfReadable(p, "d", Readable(es), 0, true);
  }

  /** The POSIX rescan does not skip directories: a directory "img_1" met before the file
      "img_2" is printed as the singleton group's member, where the Windows walker prints
      "img_2". */
  lemma PosixRescanNamesDirectory()
    ensures var es := [Entry("img_1", true, Dir(Readable([]))), Entry("img_2", true, File)];
      Tree(Posix, "d", Readable(es), 0, true) == [Line("  ", DirHeader("img_1")), Line("", Name("img_1"))] &&
      Tree(Windows, "d", Readable(es), 0, true) == [Line("  ", DirHeader("img_1")), Line("", Name("img_2"))]
  {
    ImageExampleTree(Posix);
    ImageExampleTree(Windows);
  }

  /** The shapes of the names in the listing below. */
  lemma StatExampleShapes()
    ensures HasDigit("x2") && Shape("x1") == "x#" && Shape("x2") == "x#"
  {
    var p, q := "x", "";
    assert !HasDigit(p) && !HasDigit(q) by {
      assert forall k :: 0 <= k < |p| ==> p[k] == 'x';
    }
    ShapeOfNumberedName(p, "1", q);
    ShapeOfNumberedName(p, "2", q);
    assert p + "1" + q == "x1" && p + "2" + q == "x2" && p + "#" + q == "x#";
    assert IsDigit("x2"[1]);
  }

  /** The POSIX rescan does not call stat: an entry "x1" whose stat fails (a dangling
      symbolic link, say) is dropped by the first pass, yet the rescan for the singleton
      group of the file "x2" finds it first, so "x1" is printed and "x2" never. */
  lemma PosixRescanNamesUnstattable()
    ensures Tree(Posix, "d", Readable([Entry("x1", false, File), Entry("x2", true, File)]), 0, true) ==
      [Line("", Name("x1"))]
  {
    var es := [Entry("x1", false, File), Entry("x2", true, File)];
    var listing := Readable(es);
    StatExampleShapes();
    assert !IsPlainFile(Posix, es[0]) && Grouped(Posix, true, es[1]);
    PassStep(Posix, listing, 0, 0, true);
    PassStep(Posix, listing, 1, 0, true);
    assert Pass(Posix, listing, 2, 0, true) == [];
    assert Patterns(Posix, true, es, 2) == ["x#"];
    assert RescanCandidate(Posix, es[0]);
    assert RescanIndex(Posix, es, "x#") == 0;
    OneGroupLines(Posix, es, "x#");
    TreeOfReadable(Posix, "d", listing, 0, true);
  }

  /** The intended rescan: the first file of the listing that was folded into a group
      with shape `pattern`, or |es|. */
  function MemberIndex(p: Platform, showFiles: bool, es: seq<Entry>, pattern: string): (r: nat)
    ensures r <= |es|
    ensures r < |es| ==> Grouped(p, showFiles, es[r]) && Shape(es[r].name) == pattern
    ensures forall k :: 0 <= k < r ==> !(Grouped(p, showFiles, es[k]) && Shape(es[k].name) == pattern)
  {
    if es == [] then 0
    else if Grouped(p, showFiles, es[0]) && Shape(es[0].name) == pattern then 0
    else 1 + MemberIndex(p, showFiles, es[1..], pattern)
  }

  /** The group line with the intended rescan. */
  function CorrectedGroupLine(p: Platform, showFiles: bool, es: seq<Entry>, g: FileGroup, indent: string): (r: seq<Line>)
    ensures |r| <= 1
    ensures |r| == 1 ==> r[0].indent == indent
    ensures |r| == 1 && r[0].item.Name? ==> g.count <= 1 && exists i :: 0 <= i < |es| && Grouped(p, showFiles, es[i]) && r[0].item.name == es[i].name
  {
    if g.count > 1 then [Line(indent, Summary(g.pattern, g.count))]
    else
      var r := MemberIndex(p, showFiles, es, g.pattern);
      if r < |es| then [Line(indent, Name(es[r].name))] else []
  }

  /** One more entry never lowers how often a shape occurs among the patterns, and a
      grouped file of that shape raises it by one. */
  lemma PatternsMultiplicity(p: Platform, showFiles: bool, es: seq<Entry>, k: nat, x: string)
    requires k < |es|
    ensures multiset(Patterns(p, showFiles, es, k))[x] <= multiset(Patterns(p, showFiles, es, k + 1))[x]
    ensures Grouped(p, showFiles, es[k]) && Shape(es[k].name) == x ==>
      multiset(Patterns(p, showFiles, es, k + 1))[x] == multiset(Patterns(p, showFiles, es, k))[x] + 1
  {
    var added := if Grouped(p, showFiles, es[k]) then [Shape(es[k].name)] else [];
    assert Patterns(p, showFiles, es, k + 1) == Patterns(p, showFiles, es, k) + added;
    assert multiset(Patterns(p, showFiles, es, k + 1)) == multiset(Patterns(p, showFiles, es, k)) + multiset(added);
  }

  /** A grouped file's shape is among the patterns of every longer prefix. */
  lemma {:induction false} GroupedInPatterns(p: Platform, showFiles: bool, es: seq<Entry>, k: nat, i: nat)
    requires i < k <= |es| && Grouped(p, showFiles, es[i])
    ensures Shape(es[i].name) in Patterns(p, showFiles, es, k)
  {
    if i < k - 1 {
      GroupedInPatterns(p, showFiles, es, k - 1, i);
    }
  }

  /** A shape never occurs fewer times in the patterns of a longer prefix. */
  lemma {:induction false} CountGrows(p: Platform, showFiles: bool, es: seq<Entry>, j: nat, k: nat, x: string)
    requires j <= k <= |es|
    ensures multiset(Patterns(p, showFiles, es, j))[x] <= multiset(Patterns(p, showFiles, es, k))[x]
    decreases k
  {
    if j < k {
      CountGrows(p, showFiles, es, j, k - 1, x);
      PatternsMultiplicity(p, showFiles, es, k - 1, x);
    }
  }

  /** A grouped file's shape is counted at least once in the patterns of every longer prefix. */
  lemma CountedOnce(p: Platform, showFiles: bool, es: seq<Entry>, k: nat, i: nat)
    requires i < k <= |es| && Grouped(p, showFiles, es[i])
    ensures multiset(Patterns(p, showFiles, es, k))[Shape(es[i].name)] >= 1
  {
    PatternsMultiplicity(p, showFiles, es, i, Shape(es[i].name));
    CountGrows(p, showFiles, es, i + 1, k, Shape(es[i].name));
  }

  /** A grouped file whose shape was already counted makes that shape count twice in
      the patterns of every longer prefix. */
  lemma CountedAgain(p: Platform, showFiles: bool, es: seq<Entry>, k: nat, j: nat)
    requires j < k <= |es| && Grouped(p, showFiles, es[j])
    requires multiset(Patterns(p, showFiles, es, j))[Shape(es[j].name)] >= 1
    ensures multiset(Patterns(p, showFiles, es, k))[Shape(es[j].name)] >= 2
  {
    PatternsMultiplicity(p, showFiles, es, j, Shape(es[j].name));
    CountGrows(p, showFiles, es, j + 1, k, Shape(es[j].name));
  }

  /** Two grouped files of the same shape count twice. */
  lemma TwoMembers(p: Platform, showFiles: bool, es: seq<Entry>, k: nat, i: nat, j: nat)
    requires i < j < k <= |es|
    requires Grouped(p, showFiles, es[i]) && Grouped(p, showFiles, es[j])
    requires Shape(es[i].name) == Shape(es[j].name)
    ensures multiset(Patterns(p, showFiles, es, k))[Shape(es[i].name)] >= 2
  {
    CountedOnce(p, showFiles, es, j, i);
    CountedAgain(p, showFiles, es, k, j);
  }

  /** With the intended rescan a singleton group prints the one file folded into it. */
  lemma CorrectedSingletonShowsItsFile(p: Platform, showFiles: bool, es: seq<Entry>, g: FileGroup, indent: string)
    requires g in GroupAll(Patterns(p, showFiles, es, |es|)) && g.count == 1
    ensures var i := MemberIndex(p, showFiles, es, g.pattern);
      i < |es| && Grouped(p, showFiles, es[i]) && Shape(es[i].name) == g.pattern &&
      (forall j :: 0 <= j < |es| && j != i ==> !(Grouped(p, showFiles, es[j]) && Shape(es[j].name) == g.pattern)) &&
      CorrectedGroupLine(p, showFiles, es, g, indent) == [Line(indent, Name(es[i].name))]
  {
    var ps := Patterns(p, showFiles, es, |es|);
    var gs := GroupAll(ps);
    var n :| 0 <= n < |gs| && gs[n] == g;
    GroupAllRecordsOccur(ps);
    GroupAllCounts(ps);
    PatternsOrigin(p, showFiles, es, |es|, g.pattern);
    var i := MemberIndex(p, showFiles, es, g.pattern);
    forall j | 0 <= j < |es| && j != i
      ensures !(Grouped(p, showFiles, es[j]) && Shape(es[j].name) == g.pattern)
    {
      if Grouped(p, showFiles, es[j]) && Shape(es[j].name) == g.pattern {
        TwoMembers(p, showFiles, es, |es|, i, j);
        assert false;
      }
    }
  }

  /** On the listing above the intended rescan prints "a1" for its singleton group. */
  lemma CorrectedRescanShowsNumberedFile(p: Platform)
    ensures var es := [Entry("a#", true, File), Entry("a1", true, File)];
      CorrectedGroupLine(p, true, es, FileGroup("a#", 1), "") == [Line("", Name("a1"))]
  {
    var es := [Entry("a#", true, File), Entry("a1", true, File)];
    HashExampleShapes();
    assert !Grouped(p, true, es[0]) && Grouped(p, true, es[1]);
    assert MemberIndex(p, true, es[1..], "a#") == 0;
    assert MemberIndex(p, true, es, "a#") == 1;
  }
}
