/** The shape of a file name: every maximal run of decimal digits becomes one '#',
    every other character is kept, and at most MaxPattern - 1 characters are produced.
    A string models the characters of a C string before its terminating NUL. */
module Pattern {

  /** Size of a pattern buffer, terminator included (MAX_PATTERN). */
  const MaxPattern: nat := 256

  /** isdigit in the "C" locale. */
  predicate IsDigit(c: char) {
    '0' <= c <= '9'
  }

  predicate HasDigit(s: string) {
    exists i :: 0 <= i < |s| && IsDigit(s[i])
  }

  predicate AllDigits(s: string) {
    forall i :: 0 <= i < |s| ==> IsDigit(s[i])
  }

  /** The untruncated shape of `s`, where `inRun` says whether the character
      just before `s` was a digit (the scanner's `in_number` flag). */
  function Collapse(s: string, inRun: bool): (r: string)
    ensures |r| <= |s|
  {
    if s == [] then [] else Emit(s[0], inRun) + Collapse(s[1..], IsDigit(s[0]))
  }

  /** What the scanner writes for one character: a digit opens a run with '#' or
      continues one silently, any other character is copied. */
  function Emit(c: char, inRun: bool): (r: string)
    ensures |r| <= 1
  {
    if IsDigit(c) then (if inRun then [] else ['#']) else [c]
  }

  /** The shape extract_pattern writes: the collapsed name, cut after MaxPattern - 1 characters. */
  function Shape(name: string): (r: string)
    ensures |r| <= |name| && |r| < MaxPattern
  {
    var c := Collapse(name, false);
    if |c| < MaxPattern then c else c[..MaxPattern - 1]
  }

  /** extract_pattern never writes a digit: every character of the shape is '#' or a
      non-digit of the name. */
  lemma ShapeHasNoDigit(name: string)
    ensures !HasDigit(Shape(name))
    ensures forall k :: 0 <= k < |Shape(name)| ==>
      Shape(name)[k] == '#' || (Shape(name)[k] in name && !IsDigit(Shape(name)[k]))
  {
    CollapseHasNoDigit(name, false);
    CollapseChars(name, false);
    var c := Collapse(name, false);
    if |c| >= MaxPattern {
      assert forall k :: 0 <= k < MaxPattern - 1 ==> c[..MaxPattern - 1][k] == c[k];
    }
  }

  /** Every character of a collapsed string is '#' or a non-digit of the string. */
  lemma {:induction false} CollapseChars(s: string, inRun: bool)
    ensures forall k :: 0 <= k < |Collapse(s, inRun)| ==>
      Collapse(s, inRun)[k] == '#' || (Collapse(s, inRun)[k] in s && !IsDigit(Collapse(s, inRun)[k]))
  {
    if s != [] {
      var head, rest := Emit(s[0], inRun), Collapse(s[1..], IsDigit(s[0]));
      CollapseChars(s[1..], IsDigit(s[0]));
      assert s == [s[0]] + s[1..];
      forall k | 0 <= k < |head + rest|
        ensures (head + rest)[k] == '#' || ((head + rest)[k] in s && !IsDigit((head + rest)[k]))
      {
        if k >= |head| {
          assert (head + rest)[k] == rest[k - |head|];
        }
      }
    }
  }

  /** Collapsing removes every digit. */
  lemma {:induction false} CollapseHasNoDigit(s: string, inRun: bool)
    ensures !HasDigit(Collapse(s, inRun))
  {
    if s != [] {
      CollapseHasNoDigit(s[1..], IsDigit(s[0]));
      var head := Emit(s[0], inRun);
      assert forall k :: 0 <= k < |head| ==> !IsDigit(head[k]);
    }
  }

  /** The scanner's state after reading `a` from state `inRun`. */
  function RunAfter(a: string, inRun: bool): bool {
    if a == [] then inRun else IsDigit(a[|a| - 1])
  }

  /** extract_pattern: scans `name` left to right, writing the shape into `pattern`
      and terminating it with NUL; `len` is the index of the terminator. */
  method ExtractPattern(name: string, pattern: array<char>) returns (len: nat)
    requires pattern.Length == MaxPattern
    modifies pattern
    ensures len < MaxPattern
    ensures pattern[..len] == Shape(name)
    ensures pattern[len] == '\0'
  {
    var i, j := 0, 0;
    var inNumber := false;
    ghost var shape := Collapse(name, false);
    ghost var rest := name;
    while i < |name| && j < MaxPattern - 1
      invariant 0 <= i <= |name| && rest == name[i..]
      invariant 0 <= j < MaxPattern && j <= |shape|
      invariant forall k :: 0 <= k < j ==> pattern[k] == shape[k]
      invariant Collapse(rest, inNumber) == shape[j..]
    {
      ScanStep(rest, inNumber, shape, j);
      if IsDigit(name[i]) {
        if !inNumber {
          pattern[j] := '#';
          j := j + 1;
        }
        inNumber := true;
      } else {
        pattern[j] := name[i];
        j := j + 1;
        inNumber := false;
      }
      i, rest := i + 1, rest[1..];
    }
    assert pattern[..j] == shape[..j];
    ScanDone(name, pattern[..j], i, inNumber);
    pattern[j] := '\0';
    len := j;
  }

  /** One step of the scan: reading the first character of `rest` either writes
      nothing or writes the next character of the shape. */
  lemma ScanStep(rest: string, inRun: bool, shape: string, j: nat)
    requires rest != [] && j <= |shape|
    requires Collapse(rest, inRun) == shape[j..]
    ensures IsDigit(rest[0]) && inRun ==> Collapse(rest[1..], true) == shape[j..]
    ensures IsDigit(rest[0]) && !inRun ==>
      j < |shape| && shape[j] == '#' && Collapse(rest[1..], true) == shape[j + 1..]
    ensures !IsDigit(rest[0]) ==>
      j < |shape| && shape[j] == rest[0] && Collapse(rest[1..], false) == shape[j + 1..]
  {
    if Emit(rest[0], inRun) != [] {
      assert shape[j..][1..] == shape[j + 1..];
    }
  }

  /** When the scan stops, because the name is consumed or the buffer is full, what it
      wrote is the shape. */
  lemma ScanDone(name: string, written: string, i: nat, inRun: bool)
    requires i <= |name| && |written| < MaxPattern && |written| <= |Collapse(name, false)|
    requires written == Collapse(name, false)[..|written|]
    requires Collapse(name[i..], inRun) == Collapse(name, false)[|written|..]
    requires i == |name| || |written| == MaxPattern - 1
    ensures written == Shape(name)
  {
    if i == |name| {
      assert name[i..] == [];
    }
  }

  /** has_numbers: 1 when some character of `s` is a decimal digit, otherwise 0. */
  method HasNumbers(s: string) returns (r: int)
    ensures r == 1 <==> HasDigit(s)
    ensures r == 0 <==> !HasDigit(s)
  {
    var i := 0;
    while i < |s|
      invariant 0 <= i <= |s|
      invariant forall k :: 0 <= k < i ==> !IsDigit(s[k])
    {
      if IsDigit(s[i]) {
        return 1;
      }
      i := i + 1;
    }
    return 0;
  }

  /** Collapsing a concatenation resumes on the second part in the state the first part left. */
  lemma {:induction false} CollapseAppend(a: string, b: string, inRun: bool)
    ensures Collapse(a + b, inRun) == Collapse(a, inRun) + Collapse(b, RunAfter(a, inRun))
  {
    if a == [] {
      assert a + b == b;
    } else {
      var next := IsDigit(a[0]);
      var head := Emit(a[0], inRun);
      assert (a + b)[0] == a[0];
      assert (a + b)[1..] == a[1..] + b;
      assert RunAfter(a[1..], next) == RunAfter(a, inRun);
      calc {
        Collapse(a + b, inRun);
        head + Collapse(a[1..] + b, next);
        { CollapseAppend(a[1..], b, next); }
        head + (Collapse(a[1..], next) + Collapse(b, RunAfter(a, inRun)));
        (head + Collapse(a[1..], next)) + Collapse(b, RunAfter(a, inRun));
        Collapse(a, inRun) + Collapse(b, RunAfter(a, inRun));
      }
    }
  }

  /** A run of digits yields one '#' when entered from outside a run, nothing when continued. */
  lemma {:induction false} CollapseDigitRun(ds: string, inRun: bool)
    requires ds != [] && AllDigits(ds)
    ensures Collapse(ds, inRun) == if inRun then [] else ['#']
  {
    if |ds| > 1 {
      CollapseDigitRun(ds[1..], true);
    }
  }

  /** Digit-free text is copied unchanged, whatever the state. */
  lemma {:induction false} CollapseDigitFree(s: string, inRun: bool)
    requires !HasDigit(s)
    ensures Collapse(s, inRun) == s
  {
    if s != [] {
      assert !IsDigit(s[0]);
      assert !HasDigit(s[1..]) by {
        forall k | 0 <= k < |s| - 1 ensures !IsDigit(s[1..][k]) {
          assert s[1..][k] == s[k + 1];
        }
      }
      CollapseDigitFree(s[1..], false);
    }
  }

  /** Each maximal digit run produces exactly one '#': a run `ds` preceded by a non-digit
      (or the start) and followed by a non-digit (or the end) collapses to "#". */
  lemma OneHashPerRun(p: string, ds: string, q: string)
    requires ds != [] && AllDigits(ds)
    requires p == [] || !IsDigit(p[|p| - 1])
    requires q == [] || !IsDigit(q[0])
    ensures Collapse(p + ds + q, false) == Collapse(p, false) + ['#'] + Collapse(q, false)
  {
    CollapseAppend(p + ds, q, false);
    CollapseAppend(p, ds, false);
    assert RunAfter(p, false) == false;
    CollapseDigitRun(ds, false);
    assert RunAfter(p + ds, false) == true;
    if q != [] {
      assert Collapse(q, true) == Collapse(q, false);
    }
  }

  /** Names that differ only in the digits of one run have the same shape. */
  lemma SameShapeAcrossNumbers(p: string, d1: string, d2: string, q: string)
    requires d1 != [] && AllDigits(d1) && d2 != [] && AllDigits(d2)
    requires p == [] || !IsDigit(p[|p| - 1])
    requires q == [] || !IsDigit(q[0])
    ensures Shape(p + d1 + q) == Shape(p + d2 + q)
  {
    OneHashPerRun(p, d1, q);
    OneHashPerRun(p, d2, q);
  }

  /** A name whose only digit run is `ds`, between the digit-free `p` and `q`, has the
      shape p + "#" + q. */
  lemma ShapeOfNumberedName(p: string, ds: string, q: string)
    requires ds != [] && AllDigits(ds) && !HasDigit(p) && !HasDigit(q)
    requires |p| + |q| + 1 < MaxPattern
    ensures Shape(p + ds + q) == p + "#" + q
  {
    OneHashPerRun(p, ds, q);
    CollapseDigitFree(p, false);
    CollapseDigitFree(q, false);
  }

  /** img_1.png and img_10.png share the shape img_#.png. */
  lemma NumberedImagesShareShape()
    ensures Shape("img_1.png") == "img_#.png"
    ensures Shape("img_10.png") == "img_#.png"
  {
    var p, q := "img_", ".png";
    assert !HasDigit(p) && !HasDigit(q) by {
      assert forall k :: 0 <= k < |p| ==> p[k] == 'i' || p[k] == 'm' || p[k] == 'g' || p[k] == '_';
      assert forall k :: 0 <= k < |q| ==> q[k] == '.' || q[k] == 'p' || q[k] == 'n' || q[k] == 'g';
    }
    ShapeOfNumberedName(p, "1", q);
    ShapeOfNumberedName(p, "10", q);
    assert p + "1" + q == "img_1.png";
    assert p + "10" + q == "img_10.png";
    assert p + "#" + q == "img_#.png";
  }

  /** A digit-free name shorter than MaxPattern is its own shape. */
  lemma ShapeOfDigitFree(name: string)
    requires !HasDigit(name) && |name| < MaxPattern
    ensures Shape(name) == name
  {
    CollapseDigitFree(name, false);
  }

  /** For names that fit the buffer, has_numbers holds exactly when extract_pattern changes the name. */
  lemma HasDigitIffShapeChanges(name: string)
    requires |name| < MaxPattern
    ensures HasDigit(name) <==> Shape(name) != name
  {
    if !HasDigit(name) {
      ShapeOfDigitFree(name);
    } else {
      ShapeHasNoDigit(name);
    }
  }

  /** The shape starts with '#' when the name starts with a digit, and with the name's own
      first character otherwise. */
  lemma ShapeFirstChar(name: string)
    requires name != []
    ensures Shape(name) != []
    ensures Shape(name)[0] == if IsDigit(name[0]) then '#' else name[0]
  {
  }
}
