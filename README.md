# dmitree in Dafny

dmitree prints a directory tree in which numbered files are folded into groups. Every
maximal run of decimal digits in a file name is replaced by one `#` to give the name's
*shape*. Files of the same shape are counted together. After a directory's listing, each
group is printed once:
- a group of several files prints as `shape (N files)`;
- a group of one file prints the name of the first visible entry of that shape found by
  rescanning the directory. That is normally the grouped file itself; "## Findings"
  shows three listings where it is not.

This project models the program's core and proves properties of the model:
- `extract_pattern`, `has_numbers`, `find_or_create_group`;
- the per-directory walker, `print_tree` in `dmitree-1.0.0/dmitree.c` and
  `print_tree_unix` / `print_tree_windows` in `dmitree_win.c`.

Modules:

- `Pattern` (`pattern.dfy`) covers the shape of a name.
  - `ExtractPattern` is the buffer-filling loop of `extract_pattern`, on a 256-character
    array. It is proved to write `Shape(name)` followed by a NUL.
  - `HasNumbers` is the digit test.
  - The lemmas state what a shape is: no digits, one `#` per digit run, truncation after
    255 characters, identity on short digit-free names.
- `Groups` (`groups.dfy`) covers the group table.
  - `GroupTable` is a class holding the `groups` array and `group_count`.
  - `FindOrCreate` is `find_or_create_group`, which updates the array in place.
  - `GroupAll` is the table obtained from a sequence of calls. The lemmas about it cover
    distinct patterns, exact counts, the total number of calls, and creation order.
- `Walker` (`walker.dfy`) covers the walker. The filesystem is replaced by a `Listing`
  value: the entries of a directory in enumeration order, or `Unreadable`. Each entry
  records whether `stat` succeeds on it and whether it is a file or a directory.
  - Output is a sequence of `Line(indent, item)` values.
  - `PrintTree` is the recursive walker, written as loops over the listing:
    `MakeIndent`, then `FirstPass` (one `VisitEntry` per entry), then `PrintGroups`
    (which calls `Rescan` for singleton groups).
  - `PrintTree` is proved equal to the function `Tree`.
  - The two files contain two walkers, the POSIX one and the Windows one. The model
    writes them as one walker with a `Platform` parameter, and they differ only in four
    predicates:
    - `Hidden`: a leading `.` on POSIX; only `.` and `..` on Windows.
    - `IsDirectory` and `IsPlainFile`: the POSIX walker also needs a successful `stat`.
    - `RescanCandidate`: the Windows rescan skips directories.
  - The `print_tree` dispatch in `dmitree_win.c` is this parameter.
- `TreeProperties` (`tree_properties.dfy`) holds properties of the output:
  - where files and subtrees appear;
  - that group lines are one per group;
  - that `-d` output holds only directory lines;
  - that the POSIX walker never prints dot-names;
  - that the Windows walker does print dot-files.
- `Findings` (`findings.dfy`) holds three concrete listings on which the singleton rescan
  prints something other than the grouped file, and the rescan that was evidently
  intended.

`extract_pattern`, `find_or_create_group` and `has_numbers` are textually the same in
`dmitree-1.0.0/dmitree.c:18-58` and `dmitree_win.c:27-67`. `print_tree` in `dmitree.c` is
`print_tree_unix` in `dmitree_win.c` with a different header glyph. The rows below cite
one copy of each.

Indentation: at depth 0 there is no header and file lines have an empty indent. Below
the root, a header is indented 2·level spaces and its file lines 2·level + 2
(`dmitree.c:70-77`).

## Model

| member | source | states |
|---|---|---|
| Pattern.Shape | dmitree-1.0.0/dmitree.c:22-33 | the shape has at most as many characters as the name and fewer than MAX_PATTERN (256) |
| Pattern.ExtractPattern | dmitree-1.0.0/dmitree.c:18-34 | the scan writes exactly Shape(name) into the 256-character buffer and a NUL right after it, at an index below 256 |
| Pattern.ShapeHasNoDigit | dmitree-1.0.0/dmitree.c:22-32 | the pattern never contains a decimal digit, and each of its characters is '#' or a non-digit character of the name |
| Pattern.CollapseHasNoDigit | dmitree-1.0.0/dmitree.c:23-31 | the untruncated shape, from any scanner state, contains no digit |
| Pattern.CollapseChars | dmitree-1.0.0/dmitree.c:23-31 | every character of the untruncated shape, from any scanner state, is '#' or a non-digit character of the name |
| Pattern.CollapseDigitRun | dmitree-1.0.0/dmitree.c:23-27 | a run of digits writes one '#' when it starts outside a number and nothing when it continues one |
| Pattern.CollapseDigitFree | dmitree-1.0.0/dmitree.c:28-30 | digit-free text is copied unchanged, whatever the in_number flag |
| Pattern.CollapseAppend | dmitree-1.0.0/dmitree.c:22-31 | scanning a concatenation scans the second part in the state the first part leaves |
| Pattern.OneHashPerRun | dmitree-1.0.0/dmitree.c:23-31 | a maximal digit run between non-digits (or the ends) collapses to exactly one '#' |
| Pattern.SameShapeAcrossNumbers | dmitree-1.0.0/dmitree.c:23-31 | names that differ only in the digits of one maximal run have the same shape |
| Pattern.ShapeOfNumberedName | dmitree-1.0.0/dmitree.c:22-33 | a short name p + digits + q with digit-free p and q has shape p + "#" + q |
| Pattern.NumberedImagesShareShape | dmitree-1.0.0/dmitree.c:23-31 | img_1.png and img_10.png both have shape img_#.png |
| Pattern.ShapeOfDigitFree | dmitree-1.0.0/dmitree.c:22-33 | a digit-free name shorter than 256 characters is its own shape |
| Pattern.HasDigitIffShapeChanges | dmitree-1.0.0/dmitree.c:53-58 | for names shorter than 256 characters, has_numbers holds exactly when extract_pattern changes the name |
| Pattern.ShapeFirstChar | dmitree-1.0.0/dmitree.c:22-30 | the shape of a non-empty name starts with '#' when the name starts with a digit, else with the name's first character |
| Pattern.HasNumbers | dmitree-1.0.0/dmitree.c:53-58 | returns 1 exactly when some character is a decimal digit, and 0 exactly when none is |
| Groups.Find | dmitree-1.0.0/dmitree.c:38-43 | the index of the first record with the pattern, or the record count when none has it |
| Groups.GroupTable.constructor | dmitree-1.0.0/dmitree.c:66-67 | a fresh array of the given capacity with group_count 0 |
| Groups.GroupTable.FindOrCreate | dmitree-1.0.0/dmitree.c:37-50 | on a present pattern: that record's count goes up by one, group_count and all other records are unchanged, and its index is returned; on a new pattern: (pattern, 1) is written at the old group_count, which is returned and incremented; the contents become Insert(old contents, pattern) |
| Groups.GroupAllGrows | dmitree_win.c:46-59 | more calls never leave fewer records |
| Groups.GroupAllWellFormed | dmitree_win.c:46-59 | after any sequence of calls the patterns are pairwise distinct, every count is at least 1, and a pattern has a record exactly when it was passed |
| Groups.GroupAllRecordsOccur | dmitree_win.c:54-58 | every record's pattern was passed in some call |
| Groups.GroupAllCounts | dmitree_win.c:47-51 | each record's count is the number of calls with its pattern |
| Groups.GroupAllTotal | dmitree_win.c:46-59 | the counts add up to the number of calls |
| Groups.TotalUpdate | dmitree_win.c:49 | bumping one record changes the total by the change of that count |
| Groups.TotalAppend | dmitree_win.c:55-57 | appending a record adds its count to the total |
| Groups.FirstIndex | dmitree_win.c:54-58 | the position of the first call with a pattern |
| Groups.FirstIndexAppend | dmitree_win.c:54-58 | a later call does not move the first occurrence of an earlier pattern |
| Groups.GroupAllOrder | dmitree_win.c:54-58 | records are in the order their patterns first occur among the calls |
| Groups.GroupAllSnoc | dmitree_win.c:46-59 | one more call inserts its pattern into the table built so far |
| Walker.Hidden | dmitree_win.c:100-103 | hidden names start with '.': on POSIX every such name (dmitree_win.c:179, 207), on Windows only "." and ".." |
| Walker.IsDirectory | dmitree-1.0.0/dmitree.c:91-93 | entries recursed into are directories, never also files; on POSIX only when stat succeeds; on Windows every entry is a directory or a file (dmitree_win.c:107) |
| Walker.IsPlainFile | dmitree-1.0.0/dmitree.c:91-94 | entries handled as files are non-directories whose stat succeeded on POSIX, every non-directory on Windows |
| Walker.RescanCandidate | dmitree_win.c:132-139 | the rescan compares only visible entries, never directories on Windows; every visible file the first pass handles is a candidate (POSIX rescan: dmitree_win.c:206-209) |
| Walker.Grouped | dmitree-1.0.0/dmitree.c:87-98 | defines the files folded into groups: visible, files shown, a file, and has_numbers true |
| Walker.Standalone | dmitree-1.0.0/dmitree.c:87-101 | defines the files printed at once: visible, files shown, a file, and no digit |
| Walker.FileIndent | dmitree-1.0.0/dmitree.c:70-77 | defines the indent of file and group lines: empty at depth 0, 2·level + 2 spaces below |
| Walker.Patterns | dmitree-1.0.0/dmitree.c:95-98 | defines the shapes passed to find_or_create_group for the first k entries, in listing order |
| Walker.GroupLine | dmitree-1.0.0/dmitree.c:109-122 | defines one group's line: the summary when the count exceeds 1, else the rescan's entry, else nothing |
| Walker.GroupLines | dmitree-1.0.0/dmitree.c:107-125 | defines the second loop's output: GroupLine of each record in table order |
| Walker.EntryLines | dmitree-1.0.0/dmitree.c:87-102 | defines what one entry adds in the first pass: nothing when hidden, the subtree of a directory, the name of a standalone file |
| Walker.Pass | dmitree-1.0.0/dmitree.c:85-104 | defines the first pass's output for the first k entries, entry by entry in listing order |
| Walker.Tree | dmitree-1.0.0/dmitree.c:60-128 | defines a directory's whole output: header below the root, then the error line or the pass followed by the group lines |
| Walker.TreeHeaderFirst | dmitree-1.0.0/dmitree.c:74-83 | below the root the output opens with the header; an unopenable directory prints the header and the error line only |
| Groups.Insert | dmitree-1.0.0/dmitree.c:37-50 | defines one call's effect on the records in use: bump the first record with the pattern, else append (pattern, 1) |
| Groups.GroupAll | dmitree_win.c:46-59 | defines the records after a sequence of calls on an empty table |
| Findings.CorrectedGroupLine | dmitree-1.0.0/dmitree.c:109-122 | the intended group line: at most one line, with the group's indent; a name it prints belongs to a grouped file of the listing |
| Walker.MakeIndent | dmitree-1.0.0/dmitree.c:69-72 | the strcat loop builds 2·level spaces |
| Walker.RescanIndex | dmitree-1.0.0/dmitree.c:113-122 | the index of the first rescan candidate whose shape is the pattern, or the listing length; no earlier candidate has that shape |
| Walker.Rescan | dmitree_win.c:127-146 | the rescan loop stops at exactly RescanIndex: the first visible entry of that shape that is not a directory on Windows, or any visible entry on POSIX |
| Walker.PrefixGroups | dmitree-1.0.0/dmitree.c:86-104 | a prefix of the listing never has more groups than the whole listing |
| Walker.RoomForGroup | dmitree-1.0.0/dmitree.c:66-98 | within the 1000-group bound there is always room for the record the next grouped file creates |
| Walker.GroupFile | dmitree-1.0.0/dmitree.c:95-98 | extract_pattern then find_or_create_group inserts the file's shape into the table |
| Walker.VisitEntry | dmitree-1.0.0/dmitree.c:87-102 | one iteration of the readdir loop keeps the pass state: lines printed so far equal Pass for one more entry, and the table holds GroupAll of one more entry's patterns |
| Walker.FirstPass | dmitree-1.0.0/dmitree.c:85-104 | the whole first pass prints Pass over the listing and leaves GroupAll of the listing's patterns in the table |
| Walker.PrintGroups | dmitree-1.0.0/dmitree.c:106-125 | the second loop prints GroupLines: one summary per multi-file group, and the rescan result, or nothing when the rescan finds nothing, per singleton, in table order |
| Walker.PrintTree | dmitree-1.0.0/dmitree.c:60-128 | the walk prints exactly Tree: header, then OpenError alone for an unopenable directory, otherwise pass and group lines |
| TreeProperties.PassGrows | dmitree-1.0.0/dmitree.c:86-104 | one more entry only appends to what the pass has printed |
| TreeProperties.PassPrefix | dmitree-1.0.0/dmitree.c:86-104 | what the pass prints for the first i entries is a prefix of what it prints for the first k ≥ i |
| TreeProperties.PassLineInTree | dmitree-1.0.0/dmitree.c:74-125 | every line of the first pass is a line of the directory's tree |
| TreeProperties.StandaloneFileListed | dmitree_win.c:187-193 | a visible digit-free file prints its name, with its directory's file indentation, at the exact position the pass has reached when it is met |
| TreeProperties.StandaloneFileInTree | dmitree_win.c:110-116 | such a file's line is in its directory's tree |
| TreeProperties.SubdirectoryListed | dmitree_win.c:184-185 | a visible subdirectory's whole tree sits contiguously in the pass at the position reached when it is met, so before later entries and before all group lines |
| TreeProperties.UnreadableSubdirectory | dmitree_win.c:166-175 | an unopenable subdirectory contributes its header and the error line only, and the pass continues with the next entry |
| TreeProperties.StatFailureDropped | dmitree_win.c:179-183 | an entry whose stat fails adds no line and no pattern on POSIX |
| TreeProperties.DirectoriesOnly | dmitree-1.0.0/dmitree.c:94-107 | with files hidden (-d) a walk prints only directory headers and open errors |
| TreeProperties.PassDirectoriesOnly | dmitree-1.0.0/dmitree.c:86-104 | with files hidden the first pass prints only directory headers and open errors |
| TreeProperties.PatternsOrigin | dmitree-1.0.0/dmitree.c:95-98 | every grouped pattern is the shape of some grouped file met earlier |
| TreeProperties.RescanAlwaysFinds | dmitree-1.0.0/dmitree.c:113-122 | the rescan for any group finds an entry, since the file that created the group is a candidate |
| TreeProperties.GroupLinesEach | dmitree-1.0.0/dmitree.c:108-124 | when every singleton's rescan succeeds, the j-th group prints exactly the j-th line |
| TreeProperties.GroupLinesOfListing | dmitree-1.0.0/dmitree.c:106-125 | after the listing, exactly one line per group in creation order: the summary with the number of grouped files of that shape when there are several, otherwise the name of the first candidate of that shape |
| TreeProperties.PatternsNotHidden | dmitree-1.0.0/dmitree.c:87-97 | no pattern the POSIX walker groups starts with '.' |
| TreeProperties.GroupLinesNoDotNames | dmitree-1.0.0/dmitree.c:115-119 | group lines of dot-free patterns show no dot-name |
| TreeProperties.NoDotEntries | dmitree-1.0.0/dmitree.c:87 | the POSIX walker never prints a line whose text starts with '.' below a directory whose name does not |
| TreeProperties.PassNoDotEntries | dmitree-1.0.0/dmitree.c:86-104 | the POSIX first pass prints no dot-name |
| TreeProperties.DotFilesOnWindowsOnly | dmitree_win.c:100-103 | a digit-free dot-file other than "." and ".." is listed by the Windows walker and never by the POSIX walker |
| Findings.HashExampleShapes | dmitree-1.0.0/dmitree.c:22-33 | "a1" has a digit and shape "a#"; "a#" has no digit and is its own shape |
| Findings.HashExamplePass | dmitree-1.0.0/dmitree.c:86-104 | for the files "a#" then "a1" the first pass prints "a#" and groups "a#" |
| Findings.HashExampleGroups | dmitree-1.0.0/dmitree.c:107-124 | on that listing the rescan for the group "a#" prints "a#" |
| Findings.OneGroupLines | dmitree-1.0.0/dmitree.c:107-124 | a listing with one grouped file prints the line of that file's one-member group |
| Findings.HashNameShadowsSingleton | dmitree-1.0.0/dmitree.c:95-122 | for the files "a#" then "a1" both walkers print "a#" twice and never "a1" |
| Findings.ImageExampleShapes | dmitree-1.0.0/dmitree.c:22-33 | "img_1" and "img_2" both have shape "img_#" |
| Findings.EmptySubdirectory | dmitree-1.0.0/dmitree.c:74-77 | an empty subdirectory one level down prints its header, indented two spaces, and nothing else |
| Findings.ImageExamplePass | dmitree_win.c:177-196 | for a directory "img_1" then a file "img_2" the first pass prints the subdirectory header and groups "img_#" |
| Findings.ImageExampleGroups | dmitree_win.c:204-214 | on that listing the POSIX rescan prints "img_1" and the Windows rescan "img_2" |
| Findings.ImageExampleTree | dmitree_win.c:152-220 | the whole output of each walker on that listing |
| Findings.PosixRescanNamesDirectory | dmitree_win.c:136 | the POSIX walker prints the directory "img_1" as the singleton's member where the Windows walker prints the file "img_2" |
| Findings.StatExampleShapes | dmitree-1.0.0/dmitree.c:22-33 | "x1" and "x2" both have shape "x#", and "x2" has a digit |
| Findings.PosixRescanNamesUnstattable | dmitree_win.c:183-213 | for an entry "x1" whose stat fails, listed before the file "x2", the POSIX walker prints "x1" as the singleton's member and never "x2" |
| Findings.MemberIndex | dmitree-1.0.0/dmitree.c:111-122 | the intended rescan: the first file folded into a group of that shape, no earlier one existing |
| Findings.PatternsMultiplicity | dmitree-1.0.0/dmitree.c:95-98 | one more entry never lowers a shape's multiplicity and a grouped file of that shape raises it by one |
| Findings.GroupedInPatterns | dmitree-1.0.0/dmitree.c:95-98 | a grouped file's shape is among the patterns of every longer prefix |
| Findings.CountGrows | dmitree-1.0.0/dmitree.c:95-98 | a shape is counted no fewer times in the patterns of a longer prefix |
| Findings.CountedOnce | dmitree-1.0.0/dmitree.c:95-98 | a grouped file's shape is counted at least once in the patterns of every longer prefix |
| Findings.CountedAgain | dmitree-1.0.0/dmitree.c:95-98 | a grouped file whose shape was already counted makes it count at least twice in every longer prefix |
| Findings.TwoMembers | dmitree-1.0.0/dmitree.c:95-98 | two grouped files of one shape give it a count of at least two |
| Findings.CorrectedSingletonShowsItsFile | dmitree-1.0.0/dmitree.c:111-122 | with the intended rescan, a singleton group names the one and only file folded into it |
| Findings.CorrectedRescanShowsNumberedFile | dmitree-1.0.0/dmitree.c:111-122 | on the "a#", "a1" listing the intended rescan prints "a1" |

## Left out

- Windows listings: `FindFirstFile` fails on an empty enumeration, and the walker then
  prints the error (dmitree_win.c:93-96). A real Windows directory always lists "." and
  "..", so `Readable([])` stands for no Windows directory. The examples that use an empty
  subdirectory print the same on Windows for a listing holding only "." and "..", which
  are hidden there.
- `main`: argument parsing, help text and the banner are glue. `show_files` is a parameter.
- Filesystem calls are replaced by the `Listing` value. These are `opendir`, `readdir`,
  `rewinddir`, `stat`, `closedir`, `FindFirstFile`, `FindNextFile` and `FindClose`.
- The listing cannot change between the first pass and the rescan: both read the same
  value.
- A failure of the Windows rescan's second `FindFirstFile` is not modelled. In the
  program, that singleton then prints nothing.
- `printf` formatting and glyphs are not modelled: a line is an indent and a structured
  item. The Windows walker's `|--` and `+---` glyphs are not distinguished from `├──` and
  `└──`.
- The open-failure diagnostic is one `OpenError` item. `perror` writes it to stderr on
  POSIX. The Windows walker prints it to stdout with the path.
- The `#ifdef _WIN32` build switch is modelled as the `Platform` parameter.
- The 1024-byte path buffers are not modelled. `snprintf` could truncate a long path
  before `stat` or the recursive call.
- Cyclic directory structures are not modelled. A `Listing` is a finite tree, so it cannot
  hold a symbolic link to an ancestor directory. The POSIX walker follows such a link,
  because `stat` follows links (dmitree.c:91-93), and recurses until its path and indent
  buffers overflow.
- The 256-byte `indent` buffer is not modelled. It overflows past depth 126; indents here
  are unbounded strings.
- Walker.PrintTree: requires `Fits`, meaning at most 1000 groups per directory. The
  program writes past the `groups` array beyond that, and this behaviour is not modelled.
- Groups.GroupTable.FindOrCreate: requires room for a new record, because the source has
  no bounds check.
- Groups.FileGroup: counts are unbounded naturals. The C `int` could overflow only after
  2^31 files of one shape.
- A Dafny `char` stands for one byte (a C `char`) of a name. `MaxPattern` and the cut
  after 255 characters therefore count bytes, as `j < MAX_PATTERN - 1` does
  (dmitree.c:22). A UTF-8 name is the sequence of its bytes; read as Unicode text, a long
  name with multibyte characters would be cut elsewhere.
- Pattern.IsDigit: this is `isdigit` in the "C" locale, the ASCII digits '0' to '9'.
- Names are strings without NUL characters. A C string ends at its first NUL.
- Entry names are the final path component. `strrchr(path, '/')` recovers it for the
  header, because the recursive call joins it onto the parent path.

## Findings

| source | as written | input that shows it | evidently intended | confidence | as-written member | corrected member |
|---|---|---|---|---|---|---|
| dmitree-1.0.0/dmitree.c:111-122 | the singleton rescan prints the first visible entry whose shape equals the group's pattern, and a digit-free name containing '#' has such a shape | files "a#" then "a1": "a#" prints at once, and the rescan for the group "a#" of "a1" prints "a#" again; "a1" is never shown | show the one file that was grouped ("show original name"): "a1" | not executed | Findings.HashNameShadowsSingleton | Findings.CorrectedSingletonShowsItsFile |
| dmitree_win.c:204-214 | the POSIX rescan compares every visible entry, directories included | an empty directory "img_1" then a file "img_2": the group "img_#" has one file, and the POSIX walker prints "img_1" for it | skip directories, as the Windows walker does at dmitree_win.c:136, and print "img_2" | not executed | Findings.PosixRescanNamesDirectory | Findings.CorrectedSingletonShowsItsFile |
| dmitree_win.c:206-213 | the POSIX rescan never calls stat, so it also compares entries the first pass dropped | an entry "x1" whose stat fails (a dangling symbolic link), then the file "x2": the group "x#" has one file, and the POSIX walker prints "x1" for it | print the grouped file "x2" | not executed | Findings.PosixRescanNamesUnstattable | Findings.CorrectedSingletonShowsItsFile |

`Walker.Tree` and `Walker.PrintTree` keep the rescan as written, because they describe
what the program prints. The corrected rescan is `Findings.MemberIndex`, used by
`Findings.CorrectedGroupLine`. It looks only at the files that were folded into groups.
