/** The debug formatters of `Printing.cpp`. The vector printer writes "[ ",
    then every element followed by a space, opening a new numbered line
    before elements 0, 3, 6, ..., and finally "]". How the stream renders
    one float is the parameter `show`; `std::endl` is the character '\n'. */
module Printing {
  import opened Glm

  /** The decimal digits of n, as `operator<<` prints an `int`. */
  function NatToString(n: nat): (s: string)
    ensures |s| >= 1 && forall i :: 0 <= i < |s| ==> '0' <= s[i] <= '9'
  {
    if n < 10 then [Digit(n)] else NatToString(n / 10) + [Digit(n % 10)]
  }

  function Digit(d: nat): (c: char)
    requires d < 10
    ensures '0' <= c <= '9'
  {
    ('0' as int + d) as char
  }

  /** Every element's text followed by one space. */
  function Elements(xs: seq<real>, show: real -> string): string {
    if xs == [] then "" else Elements(xs[..|xs| - 1], show) + show(xs[|xs| - 1]) + " "
  }

  /** What the loop writes before element i: a newline and the next line
      number when i is a multiple of 3, nothing otherwise. */
  function Header(i: nat): string {
    if i % 3 == 0 then "\n" + NatToString(i / 3 + 1) + " " else ""
  }

  /** The text written once the elements `xs` have been: the opening "[ ",
      then for each element its header, its text and a space. */
  function Written(xs: seq<real>, show: real -> string): string {
    if xs == [] then "[ "
    else Written(xs[..|xs| - 1], show) + Header(|xs| - 1) + show(xs[|xs| - 1]) + " "
  }

  /** `operator<<(std::ostream&, const std::vector<float>&)`, as a value. */
  function VectorText(vec: seq<real>, show: real -> string): string {
    Written(vec, show) + "]"
  }

  /** The number of numbered lines for n elements: n / 3 rounded up. */
  function NumLines(n: nat): (k: nat)
    ensures 3 * k >= n && (n > 0 ==> 3 * (k - 1) < n)
  {
    (n + 2) / 3
  }

  /** One more element opens a line exactly when the count so far is a
      multiple of 3. */
  lemma NumLinesStep(k: nat)
    ensures k % 3 == 0 ==> NumLines(k + 1) == NumLines(k) + 1 && 3 * NumLines(k) == k && k / 3 + 1 == NumLines(k) + 1
    ensures k % 3 != 0 ==> NumLines(k + 1) == NumLines(k) && 3 * (NumLines(k) - 1) < k < 3 * NumLines(k)
  {
  }

  function Min(a: int, b: int): int {
    if a < b then a else b
  }

  /** Line k (from 1): a newline, the number k, a space and elements
      3(k - 1) .. 3k - 1, those that exist. */
  function LineText(vec: seq<real>, show: real -> string, k: nat): string
    requires 1 <= k <= NumLines(|vec|)
  {
    "\n" + NatToString(k) + " " + Elements(vec[3 * (k - 1)..Min(3 * k, |vec|)], show)
  }

  /** The numbered lines 1 .. k of the vector. */
  function Lines(vec: seq<real>, show: real -> string, k: nat): string
    requires k <= NumLines(|vec|)
  {
    if k == 0 then "" else Lines(vec, show, k - 1) + LineText(vec, show, k)
  }

  /** The vector printer, line by line: "[ ", the numbered lines, "]". */
  function VectorLines(vec: seq<real>, show: real -> string): string {
    "[ " + Lines(vec, show, NumLines(|vec|)) + "]"
  }

  lemma WrittenSnoc(xs: seq<real>, x: real, show: real -> string)
    ensures Written(xs + [x], show) == Written(xs, show) + Header(|xs|) + show(x) + " "
  {
    assert (xs + [x])[..|xs|] == xs;
  }

  lemma TakeSnoc(vec: seq<real>, k: nat)
    requires k < |vec|
    ensures vec[..k + 1] == vec[..k] + [vec[k]]
  {
  }

  lemma Assoc(a: string, b: string, c: string)
    ensures a + b + c == a + (b + c)
  {
  }

  /** What one pass of the loop adds to the text: the header of element k,
      its text and a space. */
  lemma WrittenTake(vec: seq<real>, show: real -> string, k: nat)
    requires k < |vec|
    ensures Written(vec[..k + 1], show) == Written(vec[..k], show) + Header(k) + show(vec[k]) + " "
  {
    TakeSnoc(vec, k);
    WrittenSnoc(vec[..k], vec[k], show);
  }

  /** The header of element k opens line `lineno` + 1 exactly when k is a
      multiple of 3. */
  lemma HeaderAt(k: nat, lineno: nat)
    requires lineno == NumLines(k)
    ensures k % 3 == 0 ==> Header(k) == "\n" + NatToString(lineno + 1) + " " && NumLines(k + 1) == lineno + 1
    ensures k % 3 != 0 ==> Header(k) == "" && NumLines(k + 1) == lineno
  {
    NumLinesStep(k);
  }

  /** The writer's loop: `i` counts the elements written and `lineno` the
      lines opened. */
  method WriteVector(vec: seq<real>, show: real -> string) returns (out: string)
    ensures out == VectorText(vec, show)
  {
    out := "[ ";
    var i := 0;
    var lineno := 0;
    for k := 0 to |vec|
      invariant i == k && lineno == NumLines(k)
      invariant out == Written(vec[..k], show)
    {
      var element := vec[k];
      WrittenTake(vec, show, k);
      HeaderAt(k, lineno);
      ghost var before := out;
      var opens := i % 3 == 0;
      i := i + 1;
      if opens {
        lineno := lineno + 1;
        out := out + ("\n" + NatToString(lineno) + " ");
      } else {
        assert before + Header(k) == before;
      }
      out := out + show(element) + " ";
    }
    assert vec[..|vec|] == vec;
    out := out + "]";
  }

  /** Lines that only read the first 3k elements agree on vectors that
      agree there. */
  lemma {:induction false} LinesAgree(v: seq<real>, w: seq<real>, show: real -> string, k: nat)
    requires k <= NumLines(|v|) && k <= NumLines(|w|) && 3 * k <= |v| && 3 * k <= |w|
    requires v[..3 * k] == w[..3 * k]
    ensures Lines(v, show, k) == Lines(w, show, k)
    decreases k
  {
    if k > 0 {
      assert v[..3 * (k - 1)] == w[..3 * (k - 1)] by {
        assert v[..3 * (k - 1)] == v[..3 * k][..3 * (k - 1)];
        assert w[..3 * (k - 1)] == w[..3 * k][..3 * (k - 1)];
      }
      LinesAgree(v, w, show, k - 1);
      var line := v[3 * (k - 1)..3 * k];
      assert line == w[3 * (k - 1)..3 * k] by {
        assert line == v[..3 * k][3 * (k - 1)..];
        assert w[3 * (k - 1)..3 * k] == w[..3 * k][3 * (k - 1)..];
      }
      assert Min(3 * k, |v|) == 3 * k && Min(3 * k, |w|) == 3 * k;
      assert LineText(v, show, k) == LineText(w, show, k);
    }
  }

  /** Adding an element does not change the lines already complete. */
  lemma CompleteLinesAgree(xs: seq<real>, x: real, show: real -> string, k: nat)
    requires 3 * k <= |xs|
    ensures k <= NumLines(|xs|) && k <= NumLines(|xs| + 1)
    ensures Lines(xs + [x], show, k) == Lines(xs, show, k)
  {
    assert (xs + [x])[..3 * k] == xs[..3 * k];
    LinesAgree(xs + [x], xs, show, k);
  }

  /** The line an element at a multiple of 3 opens: its header, then the
      element's text and a space. */
  lemma OpenedLine(xs: seq<real>, x: real, show: real -> string)
    requires |xs| % 3 == 0
    ensures NumLines(|xs| + 1) == NumLines(|xs|) + 1
    ensures LineText(xs + [x], show, NumLines(|xs|) + 1) == Header(|xs|) + (show(x) + " ")
  {
    var l := NumLines(|xs|);
    NumLinesStep(|xs|);
    assert Min(3 * (l + 1), |xs| + 1) == 3 * l + 1;
    assert (xs + [x])[3 * l..3 * l + 1] == [x];
    assert Elements([x], show) == show(x) + " " by {
      assert [x][..0] == [];
    }
  }

  /** The last line, extended by an element that does not open a new one. */
  lemma ExtendedLine(xs: seq<real>, x: real, show: real -> string)
    requires |xs| % 3 != 0
    ensures NumLines(|xs| + 1) == NumLines(|xs|) >= 1
    ensures LineText(xs + [x], show, NumLines(|xs|)) == LineText(xs, show, NumLines(|xs|)) + (show(x) + " ")
  {
    var l := NumLines(|xs|);
    var n := |xs| + 1;
    NumLinesStep(|xs|);
    assert Min(3 * l, |xs|) == |xs| && Min(3 * l, n) == n;
    var ys := xs[3 * (l - 1)..];
    assert (xs + [x])[3 * (l - 1)..n] == ys + [x];
    assert (ys + [x])[..|ys|] == ys;
    var open := "\n" + NatToString(l) + " ";
    var els := Elements(ys, show);
    assert Elements(ys + [x], show) == els + show(x) + " ";
    assert xs[3 * (l - 1)..Min(3 * l, |xs|)] == ys;
    assert LineText(xs, show, l) == open + els;
    assert LineText(xs + [x], show, l) == open + Elements(ys + [x], show);
    Assoc(els, show(x), " ");
    Assoc(open, els, show(x) + " ");
  }

  lemma Regroup(a: string, b: string, c: string, d: string)
    ensures a + b + c + d == a + (b + (c + d))
  {
  }

  /** The writer's text after one more element, given its text before. */
  lemma WrittenStep(xs: seq<real>, x: real, show: real -> string, before: string)
    requires Written(xs, show) == "[ " + before
    ensures Written(xs + [x], show) == "[ " + (before + (Header(|xs|) + (show(x) + " ")))
  {
    WrittenSnoc(xs, x, show);
    Regroup("[ ", before, Header(|xs|), show(x) + " ");
    Assoc("[ " + before + Header(|xs|), show(x), " ");
  }

  /** The lines after an element at a multiple of 3: the old lines and a
      new one holding only that element. */
  lemma LinesOpened(xs: seq<real>, x: real, show: real -> string)
    requires |xs| % 3 == 0
    ensures NumLines(|xs| + 1) == NumLines(|xs|) + 1
    ensures Lines(xs + [x], show, NumLines(|xs| + 1)) ==
      Lines(xs, show, NumLines(|xs|)) + (Header(|xs|) + (show(x) + " "))
  {
    NumLinesStep(|xs|);
    CompleteLinesAgree(xs, x, show, NumLines(|xs|));
    OpenedLine(xs, x, show);
  }

  /** The lines after any other element: the last line grows by it. */
  lemma LinesExtended(xs: seq<real>, x: real, show: real -> string)
    requires |xs| % 3 != 0
    ensures NumLines(|xs| + 1) == NumLines(|xs|) >= 1
    ensures Lines(xs + [x], show, NumLines(|xs| + 1)) ==
      Lines(xs, show, NumLines(|xs|)) + (show(x) + " ")
  {
    var l := NumLines(|xs|);
    NumLinesStep(|xs|);
    CompleteLinesAgree(xs, x, show, l - 1);
    ExtendedLine(xs, x, show);
    Assoc(Lines(xs, show, l - 1), LineText(xs, show, l), show(x) + " ");
  }

  /** One step of the induction below: the two descriptions stay equal. */
  lemma StepAgrees(xs: seq<real>, x: real, show: real -> string)
    requires Written(xs, show) == "[ " + Lines(xs, show, NumLines(|xs|))
    ensures Written(xs + [x], show) == "[ " + Lines(xs + [x], show, NumLines(|xs| + 1))
  {
    WrittenStep(xs, x, show, Lines(xs, show, NumLines(|xs|)));
    if |xs| % 3 == 0 {
      LinesOpened(xs, x, show);
    } else {
      LinesExtended(xs, x, show);
      assert Header(|xs|) + (show(x) + " ") == show(x) + " ";
    }
  }

  /** The loop's element-by-element text is the line-by-line text: line k
      is numbered k and holds elements 3(k - 1) .. 3k - 1. */
  lemma {:induction false} WrittenIsLines(vec: seq<real>, show: real -> string)
    ensures Written(vec, show) == "[ " + Lines(vec, show, NumLines(|vec|))
    decreases |vec|
  {
    if vec != [] {
      var xs := vec[..|vec| - 1];
      var x := vec[|vec| - 1];
      assert vec == xs + [x];
      WrittenIsLines(xs, show);
      StepAgrees(xs, x, show);
    }
  }

  /** The printer, characterised line by line. */
  lemma VectorTextLines(vec: seq<real>, show: real -> string)
    ensures VectorText(vec, show) == VectorLines(vec, show)
  {
    WrittenIsLines(vec, show);
  }

  /** The text starts with "[ " and ends with "]"; an empty vector prints
      exactly "[ ]". */
  lemma Brackets(vec: seq<real>, show: real -> string)
    ensures var t := VectorText(vec, show);
      |t| >= 3 && t[..2] == "[ " && t[|t| - 1] == ']'
    ensures vec == [] ==> VectorText(vec, show) == "[ ]"
  {
    WrittenIsLines(vec, show);
    var lines := Lines(vec, show, NumLines(|vec|));
    assert VectorText(vec, show) == "[ " + (lines + "]");
  }

  /** How many times c occurs in s. */
  function Count(s: string, c: char): nat {
    if s == [] then 0 else Count(s[..|s| - 1], c) + (if s[|s| - 1] == c then 1 else 0)
  }

  lemma {:induction false} CountAppend(s: string, t: string, c: char)
    ensures Count(s + t, c) == Count(s, c) + Count(t, c)
    decreases |t|
  {
    if t == [] {
      assert s + t == s;
    } else {
      assert (s + t)[..|s + t| - 1] == s + t[..|t| - 1];
      CountAppend(s, t[..|t| - 1], c);
    }
  }

  lemma {:induction false} CountDigits(n: nat)
    ensures Count(NatToString(n), '\n') == 0
  {
    var s := NatToString(n);
    CountAbsent(s, '\n');
  }

  lemma {:induction false} CountAbsent(s: string, c: char)
    requires forall i :: 0 <= i < |s| ==> s[i] != c
    ensures Count(s, c) == 0
    decreases |s|
  {
    if s != [] {
      CountAbsent(s[..|s| - 1], c);
    }
  }

  /** The element texts contain no newline when no float's text does. */
  lemma {:induction false} ElementsNoNewline(xs: seq<real>, show: real -> string)
    requires forall x :: Count(show(x), '\n') == 0
    ensures Count(Elements(xs, show), '\n') == 0
    decreases |xs|
  {
    if xs != [] {
      ElementsNoNewline(xs[..|xs| - 1], show);
      CountAppend(Elements(xs[..|xs| - 1], show), show(xs[|xs| - 1]), '\n');
      CountAppend(Elements(xs[..|xs| - 1], show) + show(xs[|xs| - 1]), " ", '\n');
    }
  }

  /** Each numbered line holds exactly one newline, its first character. */
  lemma LineNewline(vec: seq<real>, show: real -> string, k: nat)
    requires 1 <= k <= NumLines(|vec|)
    requires forall x :: Count(show(x), '\n') == 0
    ensures Count(LineText(vec, show, k), '\n') == 1
  {
    var digits := NatToString(k);
    var els := Elements(vec[3 * (k - 1)..Min(3 * k, |vec|)], show);
    CountDigits(k);
    ElementsNoNewline(vec[3 * (k - 1)..Min(3 * k, |vec|)], show);
    assert Count("\n", '\n') == 1 by {
      assert "\n"[..0] == [];
    }
    assert Count(" ", '\n') == 0 by {
      assert " "[..0] == [];
    }
    CountAppend("\n", digits, '\n');
    CountAppend("\n" + digits, " ", '\n');
    CountAppend("\n" + digits + " ", els, '\n');
  }

  lemma {:induction false} LinesNewlines(vec: seq<real>, show: real -> string, k: nat)
    requires k <= NumLines(|vec|)
    requires forall x :: Count(show(x), '\n') == 0
    ensures Count(Lines(vec, show, k), '\n') == k
    decreases k
  {
    if k > 0 {
      LinesNewlines(vec, show, k - 1);
      LineNewline(vec, show, k);
      CountAppend(Lines(vec, show, k - 1), LineText(vec, show, k), '\n');
    }
  }

  /** When no float prints a newline, the vector printer writes exactly
      n / 3 (rounded up) newlines, one per numbered line. */
  lemma VectorNewlines(vec: seq<real>, show: real -> string)
    requires forall x :: Count(show(x), '\n') == 0
    ensures Count(VectorText(vec, show), '\n') == NumLines(|vec|)
  {
    VectorTextLines(vec, show);
    var lines := Lines(vec, show, NumLines(|vec|));
    LinesNewlines(vec, show, NumLines(|vec|));
    CountAppend("[ ", lines, '\n');
    CountAppend("[ " + lines, "]", '\n');
  }

  /** `operator<<(std::ostream&, const glm::vec3&)`: each coordinate after
      its label, "X: ", " Y: " and " Z: " in that order. */
  function Vec3Text(v: Vec3, show: real -> string): (s: string)
    ensures |s| == 11 + |show(v.x)| + |show(v.y)| + |show(v.z)|
    ensures s[..3] == "X: " && s[3..3 + |show(v.x)|] == show(v.x)
    ensures s[|s| - |show(v.z)|..] == show(v.z)
  {
    "X: " + show(v.x) + " Y: " + show(v.y) + " Z: " + show(v.z)
  }

  /** Two texts that each start with a space-free word and a space split
      the same way. */
  lemma SplitAtSpace(a: string, r: string, b: string, t: string)
    requires ' ' !in a && ' ' !in b
    requires a + " " + r == b + " " + t
    ensures a == b && r == t
  {
    assert (a + " " + r)[|a|] == ' ';
    assert (b + " " + t)[|b|] == ' ';
    assert |a| == |b|;
    assert a == (a + " " + r)[..|a|];
    assert b == (b + " " + t)[..|b|];
    assert r == (a + " " + r)[|a| + 1..];
    assert t == (b + " " + t)[|b| + 1..];
  }

  /** Three space-free words after the labels "X: ", " Y: " and " Z: "
      are read back from the text they make. */
  lemma LabelledReadBack(x: string, y: string, z: string, x': string, y': string, z': string)
    requires ' ' !in x && ' ' !in y && ' ' !in x' && ' ' !in y'
    requires "X: " + x + " Y: " + y + " Z: " + z == "X: " + x' + " Y: " + y' + " Z: " + z'
    ensures x == x' && y == y' && z == z'
  {
    var s := "X: " + x + " Y: " + y + " Z: " + z;
    var s' := "X: " + x' + " Y: " + y' + " Z: " + z';
    var r := "Y: " + y + " Z: " + z;
    var r' := "Y: " + y' + " Z: " + z';
    assert s == "X: " + (x + " " + r);
    assert s' == "X: " + (x' + " " + r');
    assert x + " " + r == s[3..] == s'[3..] == x' + " " + r';
    SplitAtSpace(x, r, x', r');
    var t := "Z: " + z;
    var t' := "Z: " + z';
    assert r[3..] == y + " " + t;
    assert r'[3..] == y' + " " + t';
    SplitAtSpace(y, t, y', t');
    assert z == t[3..] == t'[3..] == z';
  }

  /** When no float prints a space, the three coordinates can be read back
      from a `vec3`'s text: equal texts mean equal coordinate texts. */
  lemma Vec3TextReadBack(v: Vec3, w: Vec3, show: real -> string)
    requires forall x :: ' ' !in show(x)
    requires Vec3Text(v, show) == Vec3Text(w, show)
    ensures show(v.x) == show(w.x) && show(v.y) == show(w.y) && show(v.z) == show(w.z)
  {
    LabelledReadBack(show(v.x), show(v.y), show(v.z), show(w.x), show(w.y), show(w.z));
  }
}
