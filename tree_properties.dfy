/** Properties of the walker's output: where each kind of entry shows up, what the group
    lines say, and what never appears. */
module TreeProperties {
  import opened Pattern
  import opened Groups
  import opened Walker

  /** The text a line shows after its glyph. */
  function Text(it: Item): string {
    match it
    case DirHeader(n) => n
    case Name(n) => n
    case Summary(pattern, _) => pattern
    case OpenError => ""
  }

  /** A prefix of a prefix is a prefix. */
  lemma PrefixOfPrefix(a: seq<Line>, b: seq<Line>, c: seq<Line>)
    requires |a| <= |b|
    requires b[..|a|] == a
    requires |b| <= |c|
    requires c[..|b|] == b
    ensures |a| <= |c| && c[..|a|] == a
  {
    assert c[..|a|] == c[..|b|][..|a|];
  }

  /** One more entry only appends to what the first pass prints. */
  lemma PassGrows(p: Platform, listing: Listing, k: nat, level: nat, showFiles: bool)
    requires listing.Readable? && k < |listing.entries|
    ensures |Pass(p, listing, k, level, showFiles)| <= |Pass(p, listing, k + 1, level, showFiles)|
    ensures Pass(p, listing, k + 1, level, showFiles)[..|Pass(p, listing, k, level, showFiles)|] ==
      Pass(p, listing, k, level, showFiles)
  {
  }

  /** What the first pass prints for a prefix of the listing is a prefix of what it prints
      for a longer one: the pass only ever appends. */
  lemma {:induction false} PassPrefix(p: Platform, listing: Listing, i: nat, k: nat, level: nat, showFiles: bool)
    requires listing.Readable? && i <= k <= |listing.entries|
    ensures |Pass(p, listing, i, level, showFiles)| <= |Pass(p, listing, k, level, showFiles)|
    ensures Pass(p, listing, k, level, showFiles)[..|Pass(p, listing, i, level, showFiles)|] ==
      Pass(p, listing, i, level, showFiles)
    decreases k - i
  {
    if i < k {
      PassGrows(p, listing, i, level, showFiles);
      PassPrefix(p, listing, i + 1, k, level, showFiles);
      var a, b, c := Pass(p, listing, i, level, showFiles), Pass(p, listing, i + 1, level, showFiles),
        Pass(p, listing, k, level, showFiles);
      PrefixOfPrefix(a, b, c);
    }
  }

  /** Every line of a directory's first pass is a line of its tree. */
  lemma PassLineInTree(p: Platform, name: string, listing: Listing, level: nat, showFiles: bool, j: nat)
    requires listing.Readable? && j < |Pass(p, listing, |listing.entries|, level, showFiles)|
    ensures Pass(p, listing, |listing.entries|, level, showFiles)[j] in Tree(p, name, listing, level, showFiles)
  {
    TreeOfReadable(p, name, listing, level, showFiles);
    var header := if level > 0 then [Line(Spaces(2 * level), DirHeader(name))] else [];
    var whole := Pass(p, listing, |listing.entries|, level, showFiles);
    var groups := if showFiles then GroupLines(p, listing.entries, GroupAll(Patterns(p, showFiles, listing.entries, |listing.entries|)), FileIndent(level))
      else [];
    InMiddle(header, whole, groups, j);
  }

  /** An element of the middle part of a concatenation is in the whole. */
  lemma InMiddle(a: seq<Line>, b: seq<Line>, c: seq<Line>, j: nat)
    requires j < |b|
    ensures b[j] in a + (b + c)
  {
    assert (a + (b + c))[|a| + j] == b[j];
  }

  /** A visible digit-free file is printed at once, at the position the pass has reached
      when it meets the file, with its directory's file indentation. */
  lemma StandaloneFileListed(p: Platform, listing: Listing, i: nat, level: nat, showFiles: bool)
    requires listing.Readable? && i < |listing.entries| && Standalone(p, showFiles, listing.entries[i])
    ensures var whole := Pass(p, listing, |listing.entries|, level, showFiles);
      var at := |Pass(p, listing, i, level, showFiles)|;
      at < |whole| && whole[at] == Line(FileIndent(level), Name(listing.entries[i].name))
  {
    PassStep(p, listing, i, level, showFiles);
    PassPrefix(p, listing, i + 1, |listing.entries|, level, showFiles);
    var whole := Pass(p, listing, |listing.entries|, level, showFiles);
    var at := |Pass(p, listing, i, level, showFiles)|;
    assert whole[at] == Pass(p, listing, i + 1, level, showFiles)[at];
  }

  /** So the file's line is among the lines of its directory's tree. */
  lemma StandaloneFileInTree(p: Platform, name: string, listing: Listing, i: nat, level: nat, showFiles: bool)
    requires listing.Readable? && i < |listing.entries| && Standalone(p, showFiles, listing.entries[i])
    ensures Line(FileIndent(level), Name(listing.entries[i].name)) in Tree(p, name, listing, level, showFiles)
  {
    StandaloneFileListed(p, listing, i, level, showFiles);
    PassLineInTree(p, name, listing, level, showFiles, |Pass(p, listing, i, level, showFiles)|);
  }

  /** A visible subdirectory is walked as soon as it is met: its whole output sits in the
      pass at the position reached when it is met, before anything printed for later entries. */
  lemma SubdirectoryListed(p: Platform, listing: Listing, i: nat, level: nat, showFiles: bool)
    requires listing.Readable? && i < |listing.entries|
    requires !Hidden(p, listing.entries[i].name) && IsDirectory(p, listing.entries[i])
    ensures var e := listing.entries[i];
      var sub := Tree(p, e.name, e.kind.listing, level + 1, showFiles);
      var whole := Pass(p, listing, |listing.entries|, level, showFiles);
      var at := |Pass(p, listing, i, level, showFiles)|;
      at + |sub| <= |whole| && whole[at..at + |sub|] == sub
  {
    var e := listing.entries[i];
    PassStep(p, listing, i, level, showFiles);
    PassPrefix(p, listing, i + 1, |listing.entries|, level, showFiles);
    var sub := Tree(p, e.name, e.kind.listing, level + 1, showFiles);
    var whole := Pass(p, listing, |listing.entries|, level, showFiles);
    var before := Pass(p, listing, i, level, showFiles);
    assert whole[..|before| + |sub|] == before + sub;
    assert whole[|before|..|before| + |sub|] == (before + sub)[|before|..];
  }

  /** A subdirectory that cannot be opened contributes its header and the error line, and
      the pass goes on with the next entry. */
  lemma UnreadableSubdirectory(p: Platform, listing: Listing, i: nat, level: nat, showFiles: bool)
    requires listing.Readable? && i < |listing.entries|
    requires var e := listing.entries[i];
      !Hidden(p, e.name) && IsDirectory(p, e) && e.kind.listing == Unreadable
    ensures Pass(p, listing, i + 1, level, showFiles) ==
      Pass(p, listing, i, level, showFiles) +
      [Line(Spaces(2 * level + 2), DirHeader(listing.entries[i].name)), Line("", OpenError)]
  {
    PassStep(p, listing, i, level, showFiles);
  }

  /** An entry the POSIX walker cannot stat adds nothing to the output nor to the groups. */
  lemma StatFailureDropped(listing: Listing, i: nat, level: nat, showFiles: bool)
    requires listing.Readable? && i < |listing.entries| && !listing.entries[i].statOk
    ensures Pass(Posix, listing, i + 1, level, showFiles) == Pass(Posix, listing, i, level, showFiles)
    ensures Patterns(Posix, showFiles, listing.entries, i + 1) == Patterns(Posix, showFiles, listing.entries, i)
  {
    PassStep(Posix, listing, i, level, showFiles);
  }

  ghost predicate DirectoryLinesOnly(ls: seq<Line>) {
    forall j :: 0 <= j < |ls| ==> ls[j].item.DirHeader? || ls[j].item.OpenError?
  }

  lemma DirectoryLinesAppend(a: seq<Line>, b: seq<Line>)
    requires DirectoryLinesOnly(a) && DirectoryLinesOnly(b)
    ensures DirectoryLinesOnly(a + b)
  {
    forall j | 0 <= j < |a + b| ensures (a + b)[j].item.DirHeader? || (a + b)[j].item.OpenError? {
      if j >= |a| {
        assert (a + b)[j] == b[j - |a|];
      }
    }
  }

  /** With showFiles off (the -d option) a walk prints directory headers and open errors only. */
  lemma {:induction false} DirectoriesOnly(p: Platform, name: string, listing: Listing, level: nat)
    ensures DirectoryLinesOnly(Tree(p, name, listing, level, false))
    decreases listing, Size(listing) + 1
  {
    var header := if level > 0 then [Line(Spaces(2 * level), DirHeader(name))] else [];
    match listing
    case Unreadable =>
      DirectoryLinesAppend(header, [Line("", OpenError)]);
    case Readable(es) =>
      PassDirectoriesOnly(p, listing, |es|, level);
      TreeOfReadable(p, name, listing, level, false);
      assert Pass(p, listing, |es|, level, false) + [] == Pass(p, listing, |es|, level, false);
      DirectoryLinesAppend(header, Pass(p, listing, |es|, level, false));
  }

  lemma {:induction false} PassDirectoriesOnly(p: Platform, listing: Listing, k: nat, level: nat)
    requires listing.Readable? && k <= |listing.entries|
    ensures DirectoryLinesOnly(Pass(p, listing, k, level, false))
    decreases listing, k
  {
    if k > 0 {
      var e := listing.entries[k - 1];
      PassDirectoriesOnly(p, listing, k - 1, level);
      PassStep(p, listing, k - 1, level, false);
      var added := EntryLines(p, e, level, false);
      if !Hidden(p, e.name) && IsDirectory(p, e) {
        DirectoriesOnly(p, e.name, e.kind.listing, level + 1);
      }
      DirectoryLinesAppend(Pass(p, listing, k - 1, level, false), added);
    }
  }

  /** Every pattern of a listing comes from a grouped file of that shape. */
  lemma {:induction false} PatternsOrigin(p: Platform, showFiles: bool, es: seq<Entry>, k: nat, x: string)
    requires k <= |es| && x in Patterns(p, showFiles, es, k)
    ensures exists i :: 0 <= i < k && Grouped(p, showFiles, es[i]) && Shape(es[i].name) == x
  {
    if x in Patterns(p, showFiles, es, k - 1) {
      PatternsOrigin(p, showFiles, es, k - 1, x);
    } else {
      assert Grouped(p, showFiles, es[k - 1]) && Shape(es[k - 1].name) == x;
    }
  }

  /** The rescan of a group always finds an entry: the files folded into the group are
      candidates themselves. */
  lemma RescanAlwaysFinds(p: Platform, showFiles: bool, es: seq<Entry>, x: string)
    requires x in Patterns(p, showFiles, es, |es|)
    ensures RescanIndex(p, es, x) < |es|
  {
    PatternsOrigin(p, showFiles, es, |es|, x);
    var i :| 0 <= i < |es| && Grouped(p, showFiles, es[i]) && Shape(es[i].name) == x;
    assert RescanCandidate(p, es[i]);
  }

  /** When every singleton's rescan succeeds, the group lines are one line per group,
      the j-th being the line of the j-th group. */
  lemma {:induction false} GroupLinesEach(p: Platform, es: seq<Entry>, gs: seq<FileGroup>, indent: string)
    requires forall j :: 0 <= j < |gs| ==> gs[j].count > 1 || RescanIndex(p, es, gs[j].pattern) < |es|
    ensures |GroupLines(p, es, gs, indent)| == |gs|
    ensures forall j :: 0 <= j < |gs| ==>
      |GroupLine(p, es, gs[j], indent)| == 1 && GroupLines(p, es, gs, indent)[j] == GroupLine(p, es, gs[j], indent)[0]
  {
    if gs != [] {
      var init := gs[..|gs| - 1];
      assert forall j :: 0 <= j < |init| ==> init[j] == gs[j];
      GroupLinesEach(p, es, init, indent);
    }
  }

  /** After the listing a directory prints exactly one line per group, in the order the
      groups were created: the summary with the number of grouped files of that shape when
      there are several, otherwise the name of the first rescan candidate of that shape. */
  lemma GroupLinesOfListing(p: Platform, showFiles: bool, es: seq<Entry>, indent: string)
    ensures var ps := Patterns(p, showFiles, es, |es|);
      var gs := GroupAll(ps);
      var ls := GroupLines(p, es, gs, indent);
      |ls| == |gs| &&
      forall j :: 0 <= j < |gs| ==>
        RescanIndex(p, es, gs[j].pattern) < |es| &&
        ls[j] == Line(indent,
          if multiset(ps)[gs[j].pattern] > 1 then Summary(gs[j].pattern, multiset(ps)[gs[j].pattern])
          else Name(es[RescanIndex(p, es, gs[j].pattern)].name))
  {
    var ps := Patterns(p, showFiles, es, |es|);
    var gs := GroupAll(ps);
    GroupAllRecordsOccur(ps);
    GroupAllCounts(ps);
    GroupAllWellFormed(ps);
    forall j | 0 <= j < |gs| ensures RescanIndex(p, es, gs[j].pattern) < |es| {
      RescanAlwaysFinds(p, showFiles, es, gs[j].pattern);
    }
    GroupLinesEach(p, es, gs, indent);
    forall j | 0 <= j < |gs|
      ensures GroupLine(p, es, gs[j], indent)[0] == Line(indent,
        if multiset(ps)[gs[j].pattern] > 1 then Summary(gs[j].pattern, multiset(ps)[gs[j].pattern])
        else Name(es[RescanIndex(p, es, gs[j].pattern)].name))
    {
      GroupLineOfCount(p, es, gs[j], indent, multiset(ps)[gs[j].pattern]);
    }
  }

  /** The line of a group of `n` files whose rescan succeeds. */
  lemma GroupLineOfCount(p: Platform, es: seq<Entry>, g: FileGroup, indent: string, n: nat)
    requires g.count == n && RescanIndex(p, es, g.pattern) < |es|
    ensures GroupLine(p, es, g, indent) ==
      [Line(indent, if n > 1 then Summary(g.pattern, n) else Name(es[RescanIndex(p, es, g.pattern)].name))]
  {
  }

  /** On POSIX no line shows a name starting with '.'. */
  ghost predicate NoDotNames(ls: seq<Line>) {
    forall j :: 0 <= j < |ls| ==> !Hidden(Posix, Text(ls[j].item))
  }

  lemma NoDotNamesAppend(a: seq<Line>, b: seq<Line>)
    requires NoDotNames(a) && NoDotNames(b)
    ensures NoDotNames(a + b)
  {
    forall j | 0 <= j < |a + b| ensures !Hidden(Posix, Text((a + b)[j].item)) {
      if j >= |a| {
        assert (a + b)[j] == b[j - |a|];
      }
    }
  }

  /** The shapes the POSIX walker groups never start with '.'. */
  lemma {:induction false} PatternsNotHidden(showFiles: bool, es: seq<Entry>, k: nat)
    requires k <= |es|
    ensures forall x :: x in Patterns(Posix, showFiles, es, k) ==> !Hidden(Posix, x)
  {
    if k > 0 {
      PatternsNotHidden(showFiles, es, k - 1);
      var e := es[k - 1];
      if Grouped(Posix, showFiles, e) {
        ShapeFirstChar(e.name);
      }
    }
  }

  lemma {:induction false} GroupLinesNoDotNames(es: seq<Entry>, gs: seq<FileGroup>, indent: string)
    requires forall j :: 0 <= j < |gs| ==> !Hidden(Posix, gs[j].pattern)
    ensures NoDotNames(GroupLines(Posix, es, gs, indent))
  {
    if gs != [] {
      var init, g := gs[..|gs| - 1], gs[|gs| - 1];
      assert forall j :: 0 <= j < |init| ==> init[j] == gs[j];
      GroupLinesNoDotNames(es, init, indent);
      NoDotNamesAppend(GroupLines(Posix, es, init, indent), GroupLine(Posix, es, g, indent));
    }
  }

  /** The POSIX walker never prints an entry whose name starts with '.', nor a group
      pattern starting with '.', below a directory whose own name does not. */
  lemma {:induction false} NoDotEntries(name: string, listing: Listing, level: nat, showFiles: bool)
    requires level == 0 || !Hidden(Posix, name)
    ensures NoDotNames(Tree(Posix, name, listing, level, showFiles))
    decreases listing, Size(listing) + 1
  {
    var header := if level > 0 then [Line(Spaces(2 * level), DirHeader(name))] else [];
    match listing
    case Unreadable =>
      NoDotNamesAppend(header, [Line("", OpenError)]);
    case Readable(es) =>
      var ps := Patterns(Posix, showFiles, es, |es|);
      PassNoDotEntries(listing, |es|, level, showFiles);
      PatternsNotHidden(showFiles, es, |es|);
      GroupAllRecordsOccur(ps);
      GroupLinesNoDotNames(es, GroupAll(ps), FileIndent(level));
      var groups := if showFiles then GroupLines(Posix, es, GroupAll(ps), FileIndent(level)) else [];
      NoDotNamesAppend(Pass(Posix, listing, |es|, level, showFiles), groups);
      NoDotNamesAppend(header, Pass(Posix, listing, |es|, level, showFiles) + groups);
      TreeOfReadable(Posix, name, listing, level, showFiles);
  }

  lemma {:induction false} PassNoDotEntries(listing: Listing, k: nat, level: nat, showFiles: bool)
    requires listing.Readable? && k <= |listing.entries|
    ensures NoDotNames(Pass(Posix, listing, k, level, showFiles))
    decreases listing, k
  {
    if k > 0 {
      var e := listing.entries[k - 1];
      PassNoDotEntries(listing, k - 1, level, showFiles);
      PassStep(Posix, listing, k - 1, level, showFiles);
      var added := EntryLines(Posix, e, level, showFiles);
      if !Hidden(Posix, e.name) && IsDirectory(Posix, e) {
        NoDotEntries(e.name, e.kind.listing, level + 1, showFiles);
      }
      NoDotNamesAppend(Pass(Posix, listing, k - 1, level, showFiles), added);
    }
  }

  /** A digit-free dot-file other than "." and ".." is listed by the Windows walker and
      never by the POSIX walker. */
  lemma DotFilesOnWindowsOnly(name: string, listing: Listing, i: nat, level: nat)
    requires listing.Readable? && i < |listing.entries|
    requires var e := listing.entries[i];
      e.kind.File? && !HasDigit(e.name) && Hidden(Posix, e.name) && !Hidden(Windows, e.name)
    requires level == 0 || !Hidden(Posix, name)
    ensures Line(FileIndent(level), Name(listing.entries[i].name)) in Tree(Windows, name, listing, level, true)
    ensures forall l :: l in Tree(Posix, name, listing, level, true) ==> l.item != Name(listing.entries[i].name)
  {
    StandaloneFileInTree(Windows, name, listing, i, level, true);
    NoDotEntries(name, listing, level, true);
  }
}
