/**
 * The one-off repair script that re-indents the `elif message["role"] == "system":`
 * line of the chat page's message loop. Apart from reading and writing the file,
 * it is one pass over the file's lines: a flag opens at the section's marker
 * comment and closes at the next `else:`, and, inside a fixed window of line
 * indices, a system-role branch met while the flag is open is re-indented to
 * twelve spaces.
 */
module FixIndent {
  import opened Text

  /** The window of (0-based) line indices the script looks at, both ends included. */
  const WindowStart: int := 1249
  const WindowEnd: int := 1280

  const SectionMarker: string := "# Display all messages in history"
  const SystemBranch: string := "elif message[\"role\"] == \"system\":"
  const ElseBranch: string := "else:"
  const Indent: string := "            "

  predicate InWindow(i: int)
  {
    WindowStart <= i <= WindowEnd
  }

  predicate IsMarker(line: string)
  {
    StartsWith(Strip(line), SectionMarker)
  }

  predicate IsSystemBranch(line: string)
  {
    StartsWith(Strip(line), SystemBranch)
  }

  predicate IsElse(line: string)
  {
    StartsWith(Strip(line), ElseBranch)
  }

  /** The replacement for a system-role branch line. */
  function Reindent(line: string): string
  {
    Indent + Strip(line) + "\n"
  }

  /** What the loop carries: the lines written so far and the section flag. */
  datatype State = State(out: seq<string>, inSection: bool)

  /** One turn of the loop, on the line `line` at index `i`. */
  function Step(st: State, i: int, line: string): State
  {
    if InWindow(i) then
      var open := st.inSection || IsMarker(line);
      if open && IsSystemBranch(line) then State(st.out + [Reindent(line)], open)
      else if open && IsElse(line) then State(st.out + [line], false)
      else State(st.out + [line], open)
    else
      State(st.out + [line], st.inSection)
  }

  /** The state after the loop has handled the first `n` lines. */
  function Run(lines: seq<string>, n: nat): State
    requires n <= |lines|
  {
    if n == 0 then State([], false) else Step(Run(lines, n - 1), n - 1, lines[n - 1])
  }

  /** The lines the script writes back. */
  function Fix(lines: seq<string>): seq<string>
  {
    Run(lines, |lines|).out
  }

  /** The script's loop. */
  method FixLines(lines: seq<string>) returns (fixed: seq<string>)
    ensures fixed == Fix(lines)
  {
    fixed := [];
    var inSection := false;
    for i := 0 to |lines|
      invariant State(fixed, inSection) == Run(lines, i)
    {
      var line := lines[i];
      if InWindow(i) {
        if StartsWith(Strip(line), SectionMarker) {
          inSection := true;
        }
        if inSection && StartsWith(Strip(line), SystemBranch) {
          fixed := fixed + [Indent + Strip(line) + "\n"];
          continue;
        }
        if inSection && StartsWith(Strip(line), ElseBranch) {
          inSection := false;
        }
      }
      fixed := fixed + [line];
    }
  }

  /** The three kinds of line the loop reacts to are told apart by their stripped text. */
  lemma KindsExclusive(line: string)
    ensures IsMarker(line) ==> !IsSystemBranch(line) && !IsElse(line)
    ensures IsSystemBranch(line) ==> !IsElse(line)
  {
    var s := Strip(line);
    if IsMarker(line) {
      assert s[0] == SectionMarker[0] == '#';
    }
    if IsSystemBranch(line) {
      assert s[3] == SystemBranch[3] == 'f';
    }
  }

  /**
   * The section flag, defined without the loop: it is open before line `i`
   * exactly when some marker line lies in the window before `i` and no `else:`
   * line lies in the window between that marker and `i`.
   */
  ghost predicate SectionOpen(lines: seq<string>, i: nat)
    requires i <= |lines|
  {
    exists j :: 0 <= j < i && InWindow(j) && IsMarker(lines[j]) &&
      forall k :: j < k < i && InWindow(k) ==> !IsElse(lines[k])
  }

  /** How the loop-free definition moves from one line to the next. */
  lemma SectionOpenStep(lines: seq<string>, n: nat)
    requires n < |lines|
    ensures SectionOpen(lines, n + 1) ==
      if InWindow(n) then IsMarker(lines[n]) || (SectionOpen(lines, n) && !IsElse(lines[n]))
      else SectionOpen(lines, n)
  {
    var i := n + 1;
    if SectionOpen(lines, n) && !(InWindow(n) && IsElse(lines[n])) {
      var j :| 0 <= j < n && InWindow(j) && IsMarker(lines[j]) &&
        forall k :: j < k < n && InWindow(k) ==> !IsElse(lines[k]);
      assert forall k :: j < k < i && InWindow(k) ==> !IsElse(lines[k]);
    }
    if InWindow(n) && IsMarker(lines[n]) {
      assert 0 <= n < i && InWindow(n) && IsMarker(lines[n]);
    }
    if SectionOpen(lines, i) && !(InWindow(n) && IsMarker(lines[n])) {
      var j :| 0 <= j < i && InWindow(j) && IsMarker(lines[j]) &&
        forall k :: j < k < i && InWindow(k) ==> !IsElse(lines[k]);
      assert j < n;
    }
  }

  lemma {:induction false} FlagIsSectionOpen(lines: seq<string>, i: nat)
    requires i <= |lines|
    ensures Run(lines, i).inSection <==> SectionOpen(lines, i)
  {
    if i > 0 {
      var prev := Run(lines, i - 1);
      assert Run(lines, i) == Step(prev, i - 1, lines[i - 1]);
      FlagIsSectionOpen(lines, i - 1);
      StepFlag(prev, i - 1, lines[i - 1]);
      SectionOpenStep(lines, i - 1);
    }
  }

  /** The line the loop writes for `line` at index `i`, given the flag before it. */
  function Emitted(i: int, line: string, open: bool): string
  {
    if InWindow(i) && open && IsSystemBranch(line) then Reindent(line) else line
  }

  /** Each turn of the loop appends exactly one line. */
  lemma StepAppends(st: State, i: int, line: string)
    ensures Step(st, i, line).out == st.out + [Emitted(i, line, st.inSection)]
  {
    KindsExclusive(line);
  }

  /** How each turn moves the flag. */
  lemma StepFlag(st: State, i: int, line: string)
    ensures Step(st, i, line).inSection ==
      if InWindow(i) then IsMarker(line) || (st.inSection && !IsElse(line)) else st.inSection
  {
    KindsExclusive(line);
  }

  lemma {:induction false} RunLength(lines: seq<string>, n: nat)
    requires n <= |lines|
    ensures |Run(lines, n).out| == n
  {
    if n > 0 {
      RunLength(lines, n - 1);
      StepAppends(Run(lines, n - 1), n - 1, lines[n - 1]);
    }
  }

  /** Lines once written are never changed by later turns. */
  lemma {:induction false} RunPrefix(lines: seq<string>, m: nat, n: nat)
    requires m <= n <= |lines|
    ensures |Run(lines, n).out| == n
    ensures Run(lines, n).out[..m] == Run(lines, m).out
  {
    RunLength(lines, n);
    if m < n {
      RunPrefix(lines, m, n - 1);
      StepAppends(Run(lines, n - 1), n - 1, lines[n - 1]);
      assert Run(lines, n).out[..m] == Run(lines, n - 1).out[..m];
    } else {
      assert Run(lines, n).out[..m] == Run(lines, n).out;
    }
  }

  lemma RunAt(lines: seq<string>, k: nat, n: nat)
    requires k < n <= |lines|
    ensures |Run(lines, n).out| == n
    ensures Run(lines, n).out[k] == Emitted(k, lines[k], Run(lines, k).inSection)
  {
    RunPrefix(lines, k + 1, n);
    RunLength(lines, k);
    StepAppends(Run(lines, k), k, lines[k]);
    assert Run(lines, n).out[k] == Run(lines, n).out[..k + 1][k];
  }

  /**
   * The output has one line per input line; the line at `k` is the input
   * line, except a system-role branch inside the window while the section is
   * open, which is re-indented.
   */
  lemma FixLine(lines: seq<string>, k: nat)
    requires k < |lines|
    ensures |Fix(lines)| == |lines|
    ensures Fix(lines)[k] ==
      if InWindow(k) && SectionOpen(lines, k) && IsSystemBranch(lines[k]) then Reindent(lines[k]) else lines[k]
  {
    RunAt(lines, k, |lines|);
    FlagIsSectionOpen(lines, k);
  }

  /** Every line outside the window is copied as it is. */
  lemma FixOutsideWindow(lines: seq<string>, k: nat)
    requires k < |lines| && !InWindow(k)
    ensures |Fix(lines)| == |lines|
    ensures Fix(lines)[k] == lines[k]
  {
    FixLine(lines, k);
  }

  /** The marker comment and the `else:` line are themselves copied as they are. */
  lemma FixKeepsMarkerAndElse(lines: seq<string>, k: nat)
    requires k < |lines| && (IsMarker(lines[k]) || IsElse(lines[k]))
    ensures |Fix(lines)| == |lines|
    ensures Fix(lines)[k] == lines[k]
  {
    FixLine(lines, k);
    KindsExclusive(lines[k]);
  }

  /** A re-indented line has the same stripped text, so re-indenting it again changes nothing. */
  lemma ReindentFixedPoint(line: string)
    ensures Strip(Reindent(line)) == Strip(line)
    ensures Reindent(Reindent(line)) == Reindent(line)
  {
    StripIsStripped(line);
    StripPadded(Indent, Strip(line), "\n");
  }

  /** Lines with the same stripped text drive the flag alike. */
  lemma {:induction false} SameStripSameFlag(a: seq<string>, b: seq<string>, n: nat)
    requires |a| == |b| && n <= |a|
    requires forall k :: 0 <= k < |a| ==> Strip(a[k]) == Strip(b[k])
    ensures Run(a, n).inSection == Run(b, n).inSection
  {
    if n > 0 {
      SameStripSameFlag(a, b, n - 1);
    }
  }

  /** Running the script on its own output writes the same lines again. */
  lemma FixIdempotent(lines: seq<string>)
    ensures Fix(Fix(lines)) == Fix(lines)
  {
    var once := Fix(lines);
    RunLength(lines, |lines|);
    forall k | 0 <= k < |lines|
      ensures Strip(once[k]) == Strip(lines[k])
    {
      RunAt(lines, k, |lines|);
      ReindentFixedPoint(lines[k]);
    }
    RunLength(once, |once|);
    forall k | 0 <= k < |lines|
      ensures Fix(once)[k] == once[k]
    {
      RunAt(lines, k, |lines|);
      RunAt(once, k, |once|);
      SameStripSameFlag(lines, once, k);
      ReindentFixedPoint(lines[k]);
    }
  }
}
