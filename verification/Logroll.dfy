/**
 * The rolling log buffer: it fills up to a number of lines and then overwrites
 * the oldest one.  A signal between two reads prints what it holds.
 */
module Logroll {

  /** What is printed: from the oldest line to the end of the buffer, then from its start. */
  function Dump<Line>(lines: seq<Line>, idx: nat): seq<Line>
    requires idx <= |lines|
  {
    lines[idx..] + lines[..idx]
  }

  /** The last lines read, at most `target` of them; without a limit when that is not positive. */
  function LastLines<Line>(read: seq<Line>, target: int): seq<Line> {
    if 0 < target < |read| then read[|read| - target..] else read
  }

  lemma Overwrite<Line>(lines: seq<Line>, idx: nat, line: Line)
    requires idx < |lines|
    ensures Dump(lines[idx := line], if idx == |lines| - 1 then 0 else idx + 1) == Dump(lines, idx)[1..] + [line]
  {
    var after := lines[idx := line];
    assert Dump(lines, idx)[1..] == lines[idx + 1..] + lines[..idx];
    if idx == |lines| - 1 {
      assert after[..0] == [] && after == lines[..idx] + [line];
    } else {
      assert after[idx + 1..] == lines[idx + 1..] && after[..idx + 1] == lines[..idx] + [line];
    }
  }

  lemma OneMoreLine<Line>(incoming: seq<Line>, n: nat, target: int)
    requires n < |incoming|
    ensures LastLines(incoming[..n + 1], target) ==
            if 0 < target <= n then LastLines(incoming[..n], target)[1..] + [incoming[n]] else incoming[..n + 1]
  {
    assert incoming[..n + 1] == incoming[..n] + [incoming[n]];
  }

  /** What would be printed after each of the first n reads is what was read last. */
  ghost predicate Rolling<Line>(printed: seq<seq<Line>>, incoming: seq<Line>, n: nat, target: int) {
    && n <= |incoming| && |printed| == n + 1
    && forall k :: 0 <= k <= n ==> printed[k] == LastLines(incoming[..k], target)
  }

  lemma RollingMore<Line>(printed: seq<seq<Line>>, incoming: seq<Line>, n: nat, target: int, dump: seq<Line>)
    requires Rolling(printed, incoming, n, target) && n < |incoming| && dump == LastLines(incoming[..n + 1], target)
    ensures Rolling(printed + [dump], incoming, n + 1, target)
  {
  }

  lemma WholeDump<Line>(lines: seq<Line>)
    ensures Dump(lines, 0) == lines && Dump(lines, |lines|) == lines
  {
  }

  lemma TakeNext<Line>(incoming: seq<Line>, n: nat)
    requires n < |incoming|
    ensures incoming[..n + 1] == incoming[..n] + [incoming[n]]
  {
  }

  /** The first loop: lines are appended until there are `target` of them. */
  method Fill<Line>(target: int, incoming: seq<Line>)
    returns (n: nat, lines: seq<Line>, idx: nat, ghost printed: seq<seq<Line>>)
    ensures Rolling(printed, incoming, n, target) && lines == incoming[..n] && idx <= n
    ensures Dump(lines, idx) == lines == printed[n]
    ensures n < |incoming| ==> 0 < target == n && idx == 0
  {
    var lastIdx := target - 1;
    n, idx, lines := 0, 0, [];
    printed := [Dump(lines, idx)];
    while n < |incoming|
      invariant Rolling(printed, incoming, n, target) && lines == incoming[..n] == printed[n]
      invariant idx == n && (target > 0 ==> n < target)
    {
      TakeNext(incoming, n);
      lines := lines + [incoming[n]];
      WholeDump(lines);
      RollingMore(printed, incoming, n, target, lines);
      n := n + 1;
      if idx == lastIdx {
        idx := 0;
        printed := printed + [Dump(lines, idx)];
        return;
      }
      idx := idx + 1;
      printed := printed + [Dump(lines, idx)];
    }
    WholeDump(lines);
  }

  /**
   * The program.  printed[n] is what a signal after n lines prints; the output
   * at the end of the input is that after all of them.
   */
  method Roll<Line>(target: int, incoming: seq<Line>) returns (output: seq<Line>, ghost printed: seq<seq<Line>>)
    ensures Rolling(printed, incoming, |incoming|, target)
    ensures output == LastLines(incoming, target)
  {
    var n, lines, idx;
    n, lines, idx, printed := Fill(target, incoming);
    var lastIdx := target - 1;
    while n < |incoming|
      invariant Rolling(printed, incoming, n, target)
      invariant n < |incoming| ==> 0 <= idx < target == |lines| <= n
      invariant 0 <= idx <= |lines| && printed[n] == Dump(lines, idx)
    {
      Overwrite(lines, idx, incoming[n]);
      OneMoreLine(incoming, n, target);
      lines := lines[idx := incoming[n]];
      idx := if idx == lastIdx then 0 else idx + 1;
      RollingMore(printed, incoming, n, target, Dump(lines, idx));
      n := n + 1;
      printed := printed + [Dump(lines, idx)];
    }
    assert incoming[..n] == incoming;
    output := Dump(lines, idx);
  }
}
