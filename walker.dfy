/** The directory walker: one pass over a directory listing that recurses into
    subdirectories as they are met, prints digit-free files at once, folds numbered
    files into groups, and prints one line per group after the listing.

    The filesystem is replaced by a listing value. The POSIX walker (print_tree in
    dmitree.c, print_tree_unix in dmitree_win.c) and the Windows walker
    (print_tree_windows) are one walker parameterised by Platform; they differ only in
    Hidden, IsDirectory, IsPlainFile and RescanCandidate below. */
module Walker {
  import opened Pattern
  import opened Groups

  datatype Platform = Posix | Windows

  /** What enumerating a directory yields: its entries in listing order, or a failure to open it. */
  datatype Listing = Readable(entries: seq<Entry>) | Unreadable

  /** One directory entry. `statOk` says whether stat() on its path succeeds; only the
      POSIX walker calls stat, the Windows walker reads the kind from the enumeration. */
  datatype Entry = Entry(name: string, statOk: bool, kind: Kind)

  datatype Kind = File | Dir(listing: Listing)

  /** What one output line shows; the box-drawing glyphs are not modelled. */
  datatype Item =
    | DirHeader(name: string)               // "└── name/" or "+--- name/"
    | Name(name: string)                    // one file name
    | Summary(pattern: string, count: nat)  // "pattern (count files)"
    | OpenError                             // the diagnostic for a directory that cannot be opened

  datatype Line = Line(indent: string, item: Item)

  /** Entries the walker skips: names starting with '.' on POSIX, only "." and ".." on Windows. */
  predicate Hidden(p: Platform, name: string)
    ensures Hidden(p, name) ==> |name| > 0 && name[0] == '.'
  {
    match p
    case Posix => |name| > 0 && name[0] == '.'
    case Windows => name == "." || name == ".."
  }

  /** Entries the first pass recurses into. */
  predicate IsDirectory(p: Platform, e: Entry)
    ensures IsDirectory(p, e) ==> e.kind.Dir? && !IsPlainFile(p, e)
    ensures p == Windows ==> (IsDirectory(p, e) || IsPlainFile(p, e))
  {
    e.kind.Dir? && (p == Posix ==> e.statOk)
  }

  /** Entries the first pass treats as files. */
  predicate IsPlainFile(p: Platform, e: Entry)
    ensures IsPlainFile(p, e) ==> e.kind.File?
  {
    e.kind.File? && (p == Posix ==> e.statOk)
  }

  /** Files folded into a group. */
  predicate Grouped(p: Platform, showFiles: bool, e: Entry) {
    !Hidden(p, e.name) && showFiles && IsPlainFile(p, e) && HasDigit(e.name)
  }

  /** Files printed as soon as they are met. */
  predicate Standalone(p: Platform, showFiles: bool, e: Entry) {
    !Hidden(p, e.name) && showFiles && IsPlainFile(p, e) && !HasDigit(e.name)
  }

  /** Entries the singleton rescan compares: every visible entry on POSIX (no stat, no
      directory test), visible non-directories on Windows. */
  predicate RescanCandidate(p: Platform, e: Entry)
    ensures RescanCandidate(p, e) ==> !Hidden(p, e.name)
    ensures p == Windows && RescanCandidate(p, e) ==> !e.kind.Dir?
    ensures !Hidden(p, e.name) && IsPlainFile(p, e) ==> RescanCandidate(p, e)
  {
    !Hidden(p, e.name) && (p == Windows ==> !e.kind.Dir?)
  }

  function Spaces(n: nat): (r: string)
    ensures |r| == n
  {
    if n == 0 then [] else Spaces(n - 1) + [' ']
  }

  lemma SpacesStep(n: nat)
    ensures Spaces(n + 2) == Spaces(n) + "  "
  {
  }

  /** Indentation of a directory's file and group lines: none at the root, two spaces
      more than its header below it. */
  function FileIndent(level: nat): string {
    if level > 0 then Spaces(2 * level + 2) else Spaces(0)
  }

  /** The shapes of the grouped files among the first `k` entries of `es`, in listing order. */
  function Patterns(p: Platform, showFiles: bool, es: seq<Entry>, k: nat): seq<string>
    requires k <= |es|
  {
    if k == 0 then []
    else Patterns(p, showFiles, es, k - 1) + if Grouped(p, showFiles, es[k - 1]) then [Shape(es[k - 1].name)] else []
  }

  /** The index of the first rescan candidate of `es` whose shape is `pattern`, or |es|. */
  function RescanIndex(p: Platform, es: seq<Entry>, pattern: string): (r: nat)
    ensures r <= |es|
    ensures r < |es| ==> RescanCandidate(p, es[r]) && Shape(es[r].name) == pattern
    ensures forall k :: 0 <= k < r ==> !(RescanCandidate(p, es[k]) && Shape(es[k].name) == pattern)
  {
    if es == [] then 0
    else if RescanCandidate(p, es[0]) && Shape(es[0].name) == pattern then 0
    else 1 + RescanIndex(p, es[1..], pattern)
  }

  /** The line printed for one group: the summary when it has several members, otherwise
      the name the rescan finds (nothing when it finds none). */
  function GroupLine(p: Platform, es: seq<Entry>, g: FileGroup, indent: string): seq<Line> {
    if g.count > 1 then [Line(indent, Summary(g.pattern, g.count))]
    else
      var r := RescanIndex(p, es, g.pattern);
      if r < |es| then [Line(indent, Name(es[r].name))] else []
  }

  /** The group lines of a directory, in the order of the groups. */
  function GroupLines(p: Platform, es: seq<Entry>, gs: seq<FileGroup>, indent: string): seq<Line> {
    if gs == [] then []
    else GroupLines(p, es, gs[..|gs| - 1], indent) + GroupLine(p, es, gs[|gs| - 1], indent)
  }

  function Size(listing: Listing): nat {
    if listing.Readable? then |listing.entries| else 0
  }

  /** The lines printed for the directory `name` at depth `level`. */
  function Tree(p: Platform, name: string, listing: Listing, level: nat, showFiles: bool): seq<Line>
    decreases listing, Size(listing) + 1
  {
    (if level > 0 then [Line(Spaces(2 * level), DirHeader(name))] else []) +
    match listing
    case Unreadable => [Line("", OpenError)]
    case Readable(es) =>
      Pass(p, listing, |es|, level, showFiles) +
      if showFiles then GroupLines(p, es, GroupAll(Patterns(p, showFiles, es, |es|)), FileIndent(level)) else []
  }

  /** The lines the first pass prints for the first `k` entries of a readable listing. */
  function Pass(p: Platform, listing: Listing, k: nat, level: nat, showFiles: bool): seq<Line>
    requires listing.Readable? && k <= |listing.entries|
    decreases listing, k
  {
    if k == 0 then []
    else
      Pass(p, listing, k - 1, level, showFiles) + EntryLines(p, listing.entries[k - 1], level, showFiles)
  }

  /** What the first pass prints for one entry of a directory at depth `level`: nothing
      for a hidden entry, the subtree of a directory, the name of a standalone file. */
  function EntryLines(p: Platform, e: Entry, level: nat, showFiles: bool): seq<Line>
    decreases e
  {
    if Hidden(p, e.name) then []
    else if IsDirectory(p, e) then Tree(p, e.name, e.kind.listing, level + 1, showFiles)
    else if Standalone(p, showFiles, e) then [Line(FileIndent(level), Name(e.name))]
    else []
  }

  /** The walk never creates more than MaxGroups groups in one directory: the groups
      array has no bounds check. */
  ghost predicate Fits(p: Platform, showFiles: bool, listing: Listing)
    decreases listing
  {
    match listing
    case Unreadable => true
    case Readable(es) =>
      |GroupAll(Patterns(p, showFiles, es, |es|))| <= MaxGroups &&
      forall i :: 0 <= i < |es| && !Hidden(p, es[i].name) && IsDirectory(p, es[i]) ==>
        Fits(p, showFiles, es[i].kind.listing)
  }

  /** The rescan of one group: the source's inner loop over the listing. */
  method Rescan(p: Platform, es: seq<Entry>, pattern: string) returns (r: nat)
    ensures r == RescanIndex(p, es, pattern)
  {
    var buf := new char[MaxPattern];
    r := 0;
    while r < |es|
      invariant r <= |es|
      invariant forall k :: 0 <= k < r ==> !(RescanCandidate(p, es[k]) && Shape(es[k].name) == pattern)
    {
      var e := es[r];
      if RescanCandidate(p, e) {
        var len := ExtractPattern(e.name, buf);
        if buf[..len] == pattern {
          return;
        }
      }
      r := r + 1;
    }
  }

  /** What the first pass adds for the entry at index k. */
  lemma PassStep(p: Platform, listing: Listing, k: nat, level: nat, showFiles: bool)
    requires listing.Readable? && k < |listing.entries|
    ensures Pass(p, listing, k + 1, level, showFiles) ==
      Pass(p, listing, k, level, showFiles) + EntryLines(p, listing.entries[k], level, showFiles)
  {
  }

  /** A prefix of a listing never has more groups than the whole listing. */
  lemma {:induction false} PrefixGroups(p: Platform, showFiles: bool, es: seq<Entry>, k: nat)
    requires k <= |es|
    ensures |GroupAll(Patterns(p, showFiles, es, k))| <= |GroupAll(Patterns(p, showFiles, es, |es|))|
    decreases |es| - k
  {
    if k < |es| {
      GroupAllGrows(Patterns(p, showFiles, es, k), if Grouped(p, showFiles, es[k]) then [Shape(es[k].name)] else []);
      PrefixGroups(p, showFiles, es, k + 1);
    }
  }

  /** A directory within the bound always leaves room for the next group. */
  lemma RoomForGroup(p: Platform, showFiles: bool, es: seq<Entry>, k: nat)
    requires k < |es| && Grouped(p, showFiles, es[k])
    requires |GroupAll(Patterns(p, showFiles, es, |es|))| <= MaxGroups
    ensures |Insert(GroupAll(Patterns(p, showFiles, es, k)), Shape(es[k].name))| <= MaxGroups
  {
    GroupAllSnoc(Patterns(p, showFiles, es, k), Shape(es[k].name));
    PrefixGroups(p, showFiles, es, k + 1);
  }

  /** Folds a numbered file into the table: extract_pattern, then find_or_create_group. */
  method GroupFile(table: GroupTable, name: string)
    requires table.Valid()
    requires |Insert(table.Contents(), Shape(name))| <= table.groups.Length
    modifies table`groupCount, table.groups
    ensures table.Valid()
    ensures table.Contents() == Insert(old(table.Contents()), Shape(name))
  {
    var pattern := new char[MaxPattern];
    var len := ExtractPattern(name, pattern);
    var _ := table.FindOrCreate(pattern[..len]);
  }

  /** The state of the first pass after the first `k` entries of a readable listing:
      `printed` is what it has printed and the table holds the groups of those entries. */
  ghost predicate PassState(p: Platform, listing: Listing, k: nat, level: nat, showFiles: bool,
                            table: GroupTable, printed: seq<Line>)
    reads table, table.groups
  {
    listing.Readable? && k <= |listing.entries| &&
    table.Valid() && table.groups.Length == MaxGroups &&
    table.Contents() == GroupAll(Patterns(p, showFiles, listing.entries, k)) &&
    printed == Pass(p, listing, k, level, showFiles)
  }

  /** One step of the first pass: extends what the pass has printed for the first `k`
      entries to what it prints for the first k + 1, and updates the group table. */
  method VisitEntry(p: Platform, listing: Listing, k: nat, level: nat, showFiles: bool,
                    indent: string, table: GroupTable, printed: seq<Line>)
    returns (lines: seq<Line>)
    requires PassState(p, listing, k, level, showFiles, table, printed)
    requires k < |listing.entries| && Fits(p, showFiles, listing) && indent == FileIndent(level)
    modifies table`groupCount, table.groups
    ensures PassState(p, listing, k + 1, level, showFiles, table, lines)
    decreases listing, 0
  {
    var es := listing.entries;
    var e := es[k];
    PassStep(p, listing, k, level, showFiles);
    if !Grouped(p, showFiles, e) {
      assert Patterns(p, showFiles, es, k + 1) == Patterns(p, showFiles, es, k);
    }
    lines := printed;
    if !Hidden(p, e.name) {
      if IsDirectory(p, e) {
        var sub := PrintTree(p, e.name, e.kind.listing, level + 1, showFiles);
        lines := printed + sub;
      } else if IsPlainFile(p, e) && showFiles {
        var hasNumbers := HasNumbers(e.name);
        if hasNumbers == 1 {
          RoomForGroup(p, showFiles, es, k);
          GroupAllSnoc(Patterns(p, showFiles, es, k), Shape(e.name));
          GroupFile(table, e.name);
        } else {
          lines := printed + [Line(indent, Name(e.name))];
        }
      }
    }
  }

  /** The first pass over a readable listing: recurses into directories, prints
      digit-free files and fills the empty group table `table`. */
  method FirstPass(p: Platform, listing: Listing, level: nat, showFiles: bool, indent: string,
                   table: GroupTable)
    returns (lines: seq<Line>)
    requires PassState(p, listing, 0, level, showFiles, table, [])
    requires Fits(p, showFiles, listing) && indent == FileIndent(level)
    modifies table`groupCount, table.groups
    ensures PassState(p, listing, |listing.entries|, level, showFiles, table, lines)
    decreases listing, 1
  {
    lines := [];
    var k := 0;
    while k < |listing.entries|
      invariant k <= |listing.entries|
      invariant PassState(p, listing, k, level, showFiles, table, lines)
    {
      lines := VisitEntry(p, listing, k, level, showFiles, indent, table, lines);
      k := k + 1;
    }
  }

  /** The second pass: one line per group, in creation order. */
  method PrintGroups(p: Platform, es: seq<Entry>, table: GroupTable, indent: string)
    returns (lines: seq<Line>)
    requires table.Valid()
    ensures lines == GroupLines(p, es, table.Contents(), indent)
  {
    ghost var gs := table.Contents();
    lines := [];
    var g := 0;
    while g < table.groupCount
      invariant 0 <= g <= table.groupCount
      invariant lines == GroupLines(p, es, gs[..g], indent)
    {
      assert gs[..g + 1][..g] == gs[..g];
      var group := table.groups[g];
      if group.count > 1 {
        lines := lines + [Line(indent, Summary(group.pattern, group.count))];
      } else {
        var r := Rescan(p, es, group.pattern);
        if r < |es| {
          lines := lines + [Line(indent, Name(es[r].name))];
        }
      }
      g := g + 1;
    }
    assert gs[..g] == gs;
  }

  lemma TreeOfReadable(p: Platform, name: string, listing: Listing, level: nat, showFiles: bool)
    requires listing.Readable?
    ensures Tree(p, name, listing, level, showFiles) ==
      (if level > 0 then [Line(Spaces(2 * level), DirHeader(name))] else []) +
      (Pass(p, listing, |listing.entries|, level, showFiles) +
       if showFiles then GroupLines(p, listing.entries, GroupAll(Patterns(p, showFiles, listing.entries, |listing.entries|)), FileIndent(level))
       else [])
  {
  }

  /** Below the root a directory's output opens with its header; a directory that cannot
      be opened ends with the error line, after the header and nothing else. */
  lemma TreeHeaderFirst(p: Platform, name: string, listing: Listing, level: nat, showFiles: bool)
    ensures var r := Tree(p, name, listing, level, showFiles);
      level > 0 ==> |r| > 0 && r[0] == Line(Spaces(2 * level), DirHeader(name))
    ensures var r := Tree(p, name, listing, level, showFiles);
      listing.Unreadable? ==> |r| == (if level > 0 then 2 else 1) && r[|r| - 1] == Line("", OpenError)
  {
  }

  /** The indentation loop: two spaces per level. */
  method MakeIndent(level: nat) returns (indent: string)
    ensures indent == Spaces(2 * level)
  {
    indent := "";
    var i := 0;
    while i < level
      invariant 0 <= i <= level
      invariant indent == Spaces(2 * i)
    {
      SpacesStep(2 * i);
      indent := indent + "  ";
      i := i + 1;
    }
  }

  /** print_tree: walks the directory `name` at depth `level` and returns what it prints. */
  method PrintTree(p: Platform, name: string, listing: Listing, level: nat, showFiles: bool)
    returns (lines: seq<Line>)
    requires Fits(p, showFiles, listing)
    ensures lines == Tree(p, name, listing, level, showFiles)
    decreases listing, 2
  {
    var indent := MakeIndent(level);
    ghost var header := if level > 0 then [Line(Spaces(2 * level), DirHeader(name))] else [];
    lines := [];
    if level > 0 {
      lines := [Line(indent, DirHeader(name))];
      SpacesStep(2 * level);
      indent := indent + "  ";
    }
    assert lines == header && indent == FileIndent(level);
    if listing.Unreadable? {
      lines := lines + [Line("", OpenError)];
      return;
    }
    var table := new GroupTable(MaxGroups);
    var body := FirstPass(p, listing, level, showFiles, indent, table);
    if showFiles {
      var groupLines := PrintGroups(p, listing.entries, table, indent);
      body := body + groupLines;
    }
    lines := lines + body;
    TreeOfReadable(p, name, listing, level, showFiles);
  }
}
