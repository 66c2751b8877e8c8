/**
 * Finding the comment blocks of a source file that may hold a copyright notice:
 * one scanner for languages with line comments, one for C and its relatives.
 */
module CopyrightBlocks {
  import opened Wrappers
  import opened Text

  /** Lines first to last, both included. */
  datatype Block = Block(first: nat, last: nat)

  // ---------------------------------------------------------------- patterns

  predicate At(line: string, pattern: string, i: nat) {
    i + |pattern| <= |line| && line[i..i + |pattern|] == pattern
  }

  /** Where a pattern occurs first, from position i on. */
  function Find(line: string, pattern: string, i: nat): (r: Option<nat>)
    requires i <= |line|
    ensures r.Some? ==> i <= r.value && At(line, pattern, r.value)
    decreases |line| - i
  {
    if At(line, pattern, i) then Some(i)
    else if i < |line| then Find(line, pattern, i + 1)
    else None
  }

  predicate Contains(line: string, pattern: string) {
    Find(line, pattern, 0).Some?
  }

  predicate IsBlank(line: string) {
    Strip(line) == ""
  }

  predicate StartsWith(line: string, prefix: string) {
    At(line, prefix, 0)
  }

  function SkipBlanks(s: string): string {
    if s != [] && s[0] == ' ' then SkipBlanks(s[1..]) else s
  }

  /** An editor's mode line, the opening marker found at or behind position i. */
  predicate IsModeLine(line: string, i: nat)
    requires i <= |line|
    decreases |line| - i
  {
    match Find(line, "-*-", i)
    case None => false
    case Some(at) =>
      var rest := SkipBlanks(line[at + 3..]);
      (StartsWith(rest, "mode:") && Contains(rest[5..], "-*-")) || IsModeLine(line, at + 1)
  }

  // ---------------------------------------------------------------- line comments

  /** The shell family and Lisp differ in what a comment is and in what the first line may be. */
  datatype Language = Shell | Lisp

  predicate IsComment(lang: Language, line: string) {
    match lang
    case Shell => StartsWith(StripLeft(line), "#")
    case Lisp => Contains(line, ";")
  }

  predicate IsSkipped(lang: Language, lines: seq<string>, i: nat)
    requires i < |lines|
  {
    i == 0 && (IsModeLine(lines[0], 0) || (lang == Shell && StartsWith(lines[0], "#!")))
  }

  /** Line i counts as a comment. */
  predicate InComment(lang: Language, lines: seq<string>, i: int) {
    0 <= i < |lines| && !IsSkipped(lang, lines, i) && IsComment(lang, lines[i])
  }

  /** A line of code that does not end a block; the scan gives up there. */
  predicate Stops(lang: Language, lines: seq<string>, i: int) {
    && 0 <= i < |lines| && !IsSkipped(lang, lines, i)
    && !IsComment(lang, lines[i]) && !IsBlank(lines[i]) && !InComment(lang, lines, i - 1)
  }

  /** Line i is the last of a run of comment lines that the scan gets to see, and another line follows. */
  predicate EndsBlock(lang: Language, lines: seq<string>, i: int) {
    && InComment(lang, lines, i) && i + 1 < |lines| && !InComment(lang, lines, i + 1)
    && forall e :: 0 <= e <= i ==> !Stops(lang, lines, e)
  }

  /** A maximal run of comment lines. */
  predicate IsRun(lang: Language, lines: seq<string>, b: Block) {
    && b.first <= b.last < |lines|
    && (forall i :: b.first <= i <= b.last ==> InComment(lang, lines, i))
    && !InComment(lang, lines, b.first - 1) && !InComment(lang, lines, b.last + 1)
  }

  predicate Ascending(blocks: seq<Block>) {
    forall i, j :: 0 <= i < j < |blocks| ==> blocks[i].last < blocks[j].first
  }

  /** The blocks are exactly the runs that end before line n. */
  ghost predicate FoundUpTo(lang: Language, lines: seq<string>, blocks: seq<Block>, n: int) {
    && Ascending(blocks)
    && (forall k :: 0 <= k < |blocks| ==> IsRun(lang, lines, blocks[k]) && EndsBlock(lang, lines, blocks[k].last))
    && (forall k :: 0 <= k < |blocks| ==> blocks[k].last < n)
    && forall i :: 0 <= i < n && EndsBlock(lang, lines, i) ==> exists k :: 0 <= k < |blocks| && blocks[k].last == i
  }

  lemma FoundMore(lang: Language, lines: seq<string>, blocks: seq<Block>, n: nat, b: Block)
    requires FoundUpTo(lang, lines, blocks, n) && b.last == n && IsRun(lang, lines, b) && EndsBlock(lang, lines, n)
    requires forall k :: 0 <= k < |blocks| ==> blocks[k].last < b.first
    ensures FoundUpTo(lang, lines, blocks + [b], n + 1)
  {
    var more := blocks + [b];
    assert more[|blocks|] == b;
    forall i | 0 <= i < n + 1 && EndsBlock(lang, lines, i) ensures exists k :: 0 <= k < |more| && more[k].last == i {
      if i < n {
        var k :| 0 <= k < |blocks| && blocks[k].last == i;
        assert more[k].last == i;
      }
    }
  }

  lemma FoundNoMore(lang: Language, lines: seq<string>, blocks: seq<Block>, n: int, m: int)
    requires FoundUpTo(lang, lines, blocks, n) && n <= m && forall i :: n <= i < m ==> !EndsBlock(lang, lines, i)
    ensures FoundUpTo(lang, lines, blocks, m)
  {
  }

  /** Between line i - 1 and line i: the run that line i - 1 belongs to, if any, began at `start`. */
  ghost predicate Scanning(lang: Language, lines: seq<string>, blocks: seq<Block>, start: Option<nat>, i: nat) {
    && i <= |lines| && FoundUpTo(lang, lines, blocks, i - 1)
    && (forall e :: 0 <= e < i ==> !Stops(lang, lines, e))
    && match start
       case None => !InComment(lang, lines, i - 1)
       case Some(s) => OpenRun(lang, lines, blocks, s, i)
  }

  predicate OpenRun(lang: Language, lines: seq<string>, blocks: seq<Block>, start: nat, i: nat) {
    && start < i && !InComment(lang, lines, start - 1)
    && (forall k :: start <= k < i ==> InComment(lang, lines, k))
    && (forall k :: 0 <= k < |blocks| ==> blocks[k].last < start)
  }

  lemma ScanComment(lang: Language, lines: seq<string>, blocks: seq<Block>, start: Option<nat>, i: nat)
    requires i < |lines| && Scanning(lang, lines, blocks, start, i) && InComment(lang, lines, i)
    ensures Scanning(lang, lines, blocks, if start.None? then Some(i) else start, i + 1)
  {
    FoundNoMore(lang, lines, blocks, i - 1, i);
  }

  lemma ScanOutside(lang: Language, lines: seq<string>, blocks: seq<Block>, i: nat)
    requires i < |lines| && Scanning(lang, lines, blocks, None, i)
    requires IsSkipped(lang, lines, i) || (!IsComment(lang, lines[i]) && IsBlank(lines[i]))
    ensures Scanning(lang, lines, blocks, None, i + 1)
  {
    FoundNoMore(lang, lines, blocks, i - 1, i);
  }

  lemma ScanEnd(lang: Language, lines: seq<string>, blocks: seq<Block>, start: nat, i: nat)
    requires i < |lines| && Scanning(lang, lines, blocks, Some(start), i) && !InComment(lang, lines, i)
    ensures Scanning(lang, lines, blocks + [Block(start, i - 1)], None, i + 1)
  {
    FoundMore(lang, lines, blocks, i - 1, Block(start, i - 1));
  }

  lemma ScanStop(lang: Language, lines: seq<string>, blocks: seq<Block>, i: nat)
    requires Scanning(lang, lines, blocks, None, i) && (i < |lines| ==> Stops(lang, lines, i))
    ensures FoundUpTo(lang, lines, blocks, |lines|)
  {
    FoundNoMore(lang, lines, blocks, i - 1, |lines|);
  }

  lemma ScanAll(lang: Language, lines: seq<string>, blocks: seq<Block>, start: Option<nat>)
    requires Scanning(lang, lines, blocks, start, |lines|)
    ensures FoundUpTo(lang, lines, blocks, |lines|)
  {
    FoundNoMore(lang, lines, blocks, |lines| - 1, |lines|);
  }

  /**
   * Yields the blocks in order.  Line i - 1 is decided when line i is read, so a
   * block that runs to the end of the file is not yielded.
   */
  method FindLineBlocks(lang: Language, lines: seq<string>) returns (blocks: seq<Block>)
    ensures FoundUpTo(lang, lines, blocks, |lines|)
  {
    blocks := [];
    var start: Option<nat> := None;
    for i := 0 to |lines|
      invariant Scanning(lang, lines, blocks, start, i)
    {
      if i == 0 && ((lang == Shell && StartsWith(lines[0], "#!")) || IsModeLine(lines[0], 0)) {
        ScanOutside(lang, lines, blocks, i);
        continue;
      }
      if IsComment(lang, lines[i]) {
        ScanComment(lang, lines, blocks, start, i);
        if start.None? {
          start := Some(i);
        }
      } else if start.None? {
        if !IsBlank(lines[i]) {
          ScanStop(lang, lines, blocks, i);
          return;
        }
        ScanOutside(lang, lines, blocks, i);
      } else {
        ScanEnd(lang, lines, blocks, start.value, i);
        blocks := blocks + [Block(start.value, i - 1)];
        start := None;
      }
    }
    ScanAll(lang, lines, blocks, start);
  }

  // ---------------------------------------------------------------- C and its relatives

  datatype Mode = Outside | InC | InCpp

  datatype Outcome = Done | BothComments(line: nat)

  predicate HasCpp(line: string) {
    Contains(line, "//")
  }

  /** Both kinds of comment on one line. */
  predicate HasBoth(line: string) {
    HasCpp(line) && Contains(line, "/*")
  }

  /** Only white space in front of the first "//", and no block comment. */
  predicate IsLineComment(line: string) {
    HasCpp(line) && !Contains(line, "/*") && IsBlank(line[..Find(line, "//", 0).value])
  }

  predicate CppCopyright(line: string)
    requires HasCpp(line)
  {
    StartsWith(StripLeft(line[Find(line, "//", 0).value + 2..]), "Copyright")
  }

  /** A line with an opening marker of a block comment. */
  predicate OpensBlockComment(line: string) {
    !HasCpp(line) && Contains(line, "/*")
  }

  /** From a line with an opening to the next later line with a closing marker. */
  predicate IsCBlock(lines: seq<string>, b: Block) {
    && b.first < b.last < |lines| && OpensBlockComment(lines[b.first]) && Contains(lines[b.last], "*/")
    && forall i :: b.first < i < b.last ==> !Contains(lines[i], "*/")
  }

  /** The line goes on with a block of line comments: a notice of its own would begin a new one. */
  predicate GoesOn(line: string) {
    IsBlank(line) || (IsLineComment(line) && !CppCopyright(line))
  }

  /** The line ends a block of line comments: a notice of its own, a block comment or code. */
  predicate EndsCpp(line: string) {
    if HasCpp(line) then IsLineComment(line) && CppCopyright(line) else !IsBlank(line)
  }

  /** Line comments and blank lines, beginning with a comment, as far as they go on. */
  predicate IsCppBlock(lines: seq<string>, b: Block) {
    && b.first <= b.last && b.last + 1 < |lines| && IsLineComment(lines[b.first]) && EndsCpp(lines[b.last + 1])
    && forall i :: b.first < i <= b.last ==> GoesOn(lines[i])
  }

  predicate CBlocksOk(lines: seq<string>, blocks: seq<Block>) {
    && Ascending(blocks)
    && forall k :: 0 <= k < |blocks| ==> IsCBlock(lines, blocks[k]) || IsCppBlock(lines, blocks[k])
  }

  predicate AllBefore(blocks: seq<Block>, n: int) {
    forall k :: 0 <= k < |blocks| ==> blocks[k].last < n
  }

  predicate InBlocks(blocks: seq<Block>, i: int) {
    exists k :: 0 <= k < |blocks| && blocks[k].first <= i <= blocks[k].last
  }

  /** The first n lines are blank, an editor's mode line or in a block. */
  predicate Covered(lines: seq<string>, blocks: seq<Block>, n: int)
    requires n <= |lines|
  {
    forall i :: 0 <= i < n ==> IsBlank(lines[i]) || (i == 0 && IsModeLine(lines[0], 0)) || InBlocks(blocks, i)
  }

  lemma BlocksMore(lines: seq<string>, blocks: seq<Block>, b: Block)
    requires CBlocksOk(lines, blocks) && AllBefore(blocks, b.first)
    requires IsCBlock(lines, b) || IsCppBlock(lines, b)
    requires Covered(lines, blocks, b.first)
    ensures CBlocksOk(lines, blocks + [b]) && AllBefore(blocks + [b], b.last + 1)
    ensures Covered(lines, blocks + [b], b.last + 1)
  {
    var more := blocks + [b];
    assert more[|blocks|] == b;
    forall i | InBlocks(blocks, i) ensures InBlocks(more, i) {
      var k :| 0 <= k < |blocks| && blocks[k].first <= i <= blocks[k].last;
      assert more[k] == blocks[k];
    }
  }

  /** Neither blank nor a comment. */
  predicate IsCode(line: string) {
    if HasCpp(line) then !Contains(line, "/*") && !IsLineComment(line) else !IsBlank(line) && !Contains(line, "/*")
  }

  /** The block that is open at line i. */
  predicate OpenOk(lines: seq<string>, mode: Mode, start: Option<nat>, i: nat)
    requires i <= |lines|
  {
    match mode
    case Outside => true
    case InC =>
      start.Some? && start.value < i && OpensBlockComment(lines[start.value])
      && forall k :: start.value < k < i ==> !Contains(lines[k], "*/")
    case InCpp =>
      start.Some? && start.value < i && IsLineComment(lines[start.value])
      && forall k :: start.value < k < i ==> GoesOn(lines[k])
  }

  /** Where the lines begin that no block has yet. */
  function OpenFrom(mode: Mode, start: Option<nat>, i: nat): nat {
    if mode != Outside && start.Some? then start.value else i
  }

  /** Before line i: the blocks so far, and the block that is open. */
  predicate Reading(lines: seq<string>, blocks: seq<Block>, mode: Mode, start: Option<nat>, i: nat) {
    && i <= |lines| && CBlocksOk(lines, blocks) && OpenOk(lines, mode, start, i)
    && AllBefore(blocks, OpenFrom(mode, start, i)) && Covered(lines, blocks, OpenFrom(mode, start, i))
  }

  lemma ReadOutside(lines: seq<string>, blocks: seq<Block>, start: Option<nat>, i: nat)
    requires i < |lines| && Reading(lines, blocks, Outside, start, i)
    requires IsBlank(lines[i]) || (i == 0 && IsModeLine(lines[0], 0))
    ensures Reading(lines, blocks, Outside, start, i + 1)
  {
  }

  lemma ReadBegin(lines: seq<string>, blocks: seq<Block>, start: Option<nat>, i: nat)
    requires i < |lines| && Reading(lines, blocks, Outside, start, i)
    ensures OpensBlockComment(lines[i]) ==> Reading(lines, blocks, InC, Some(i), i + 1)
    ensures IsLineComment(lines[i]) ==> Reading(lines, blocks, InCpp, Some(i), i + 1)
  {
  }

  lemma ReadOn(lines: seq<string>, blocks: seq<Block>, mode: Mode, start: Option<nat>, i: nat)
    requires i < |lines| && Reading(lines, blocks, mode, start, i)
    ensures mode == InC && !Contains(lines[i], "*/") ==> Reading(lines, blocks, mode, start, i + 1)
    ensures mode == InCpp && GoesOn(lines[i]) ==> Reading(lines, blocks, mode, start, i + 1)
  {
  }

  lemma ReadCEnd(lines: seq<string>, blocks: seq<Block>, start: Option<nat>, i: nat)
    requires i < |lines| && Reading(lines, blocks, InC, start, i) && Contains(lines[i], "*/")
    ensures Reading(lines, blocks + [Block(start.value, i)], Outside, start, i + 1)
  {
    BlocksMore(lines, blocks, Block(start.value, i));
  }

  lemma ReadCppEnd(lines: seq<string>, blocks: seq<Block>, start: Option<nat>, i: nat)
    requires i < |lines| && Reading(lines, blocks, InCpp, start, i) && EndsCpp(lines[i])
    ensures Reading(lines, blocks + [Block(start.value, i - 1)], Outside, start, i)
  {
    BlocksMore(lines, blocks, Block(start.value, i - 1));
  }

  /** What is known where the scan stops; the lines from `open` on are in a block that is not yielded. */
  ghost predicate Stopped(lines: seq<string>, blocks: seq<Block>, open: nat, stop: nat) {
    && open <= stop <= |lines| && CBlocksOk(lines, blocks) && AllBefore(blocks, open) && Covered(lines, blocks, open)
    && (open < stop ==> OpenOk(lines, InC, Some(open), stop) || OpenOk(lines, InCpp, Some(open), stop))
    && (stop < |lines| ==> HasBoth(lines[stop]) || IsCode(lines[stop]))
  }

  /** The scan fails exactly on a line with both kinds of comment. */
  function OutcomeAt(lines: seq<string>, stop: nat): Outcome {
    if stop < |lines| && HasBoth(lines[stop]) then BothComments(stop) else Done
  }

  lemma StopReading(lines: seq<string>, blocks: seq<Block>, mode: Mode, start: Option<nat>, i: nat)
    requires Reading(lines, blocks, mode, start, i) && (i < |lines| ==> HasBoth(lines[i]) || IsCode(lines[i]))
    ensures Stopped(lines, blocks, OpenFrom(mode, start, i), i)
  {
  }

  /**
   * Yields the blocks in order, up to the first line of code.  Of the assertions in
   * the scanner only one can fail: that no line outside a block comment has both
   * kinds of comment.
   */
  method FindCBlocks(lines: seq<string>) returns (blocks: seq<Block>, outcome: Outcome)
    ensures exists open: nat, stop: nat :: Stopped(lines, blocks, open, stop) && outcome == OutcomeAt(lines, stop)
  {
    blocks, outcome := [], Done;
    var start: Option<nat>, mode := None, Outside;
    for i := 0 to |lines|
      invariant Reading(lines, blocks, mode, start, i) && (i == 0 ==> mode == Outside)
    {
      var line := lines[i];
      if i == 0 && IsModeLine(line, 0) {
        ReadOutside(lines, blocks, start, i);
        continue;
      }
      if mode == InC {
        if Contains(line, "*/") {
          ReadCEnd(lines, blocks, start, i);
          blocks := blocks + [Block(start.value, i)];
          mode := Outside;
        } else {
          ReadOn(lines, blocks, mode, start, i);
        }
        continue;
      }
      var cMatch := Contains(line, "/*");
      if HasCpp(line) {
        if cMatch {
          StopReading(lines, blocks, mode, start, i);
          outcome := BothComments(i);
          return;
        }
        if !IsBlank(line[..Find(line, "//", 0).value]) {
          StopReading(lines, blocks, mode, start, i);
          return;
        }
        if mode == Outside {
          ReadBegin(lines, blocks, start, i);
          mode, start := InCpp, Some(i);
        } else if CppCopyright(line) {
          ReadCppEnd(lines, blocks, start, i);
          blocks := blocks + [Block(start.value, i - 1)];
          ReadBegin(lines, blocks, start, i);
          start := Some(i);
        } else {
          ReadOn(lines, blocks, mode, start, i);
        }
        continue;
      } else if mode == InCpp {
        if IsBlank(line) {
          ReadOn(lines, blocks, mode, start, i);
          continue;
        }
        ReadCppEnd(lines, blocks, start, i);
        blocks := blocks + [Block(start.value, i - 1)];
        mode := Outside;
        if !cMatch {
          StopReading(lines, blocks, mode, start, i);
          return;
        }
      }
      if cMatch {
        ReadBegin(lines, blocks, start, i);
        mode, start := InC, Some(i);
      } else if !IsBlank(line) {
        StopReading(lines, blocks, mode, start, i);
        return;
      } else {
        ReadOutside(lines, blocks, start, i);
      }
    }
    StopReading(lines, blocks, mode, start, |lines|);
  }

  /** Line i is inside a block comment: behind the line that opens one, up to the line that closes it. */
  predicate InsideC(lines: seq<string>, blocks: seq<Block>, i: int) {
    exists k :: 0 <= k < |blocks| && blocks[k].first < i <= blocks[k].last && IsCBlock(lines, blocks[k])
  }

  lemma CodeInBlock(lines: seq<string>, b: Block, i: nat)
    requires (IsCBlock(lines, b) || IsCppBlock(lines, b)) && b.first <= i <= b.last
    requires HasBoth(lines[i]) || IsCode(lines[i])
    ensures IsCBlock(lines, b) && b.first < i
  {
    if IsBlank(lines[i]) {
      BlankHasNoComment(lines[i]);
    }
  }

  /** What is not white space survives stripping. */
  lemma {:induction false} LeftStripped(s: string, i: nat)
    requires i < |s| && !IsSpace(s[i])
    ensures StripLeft(s) != [] && !IsSpace(StripLeft(s)[0])
  {
    if IsSpace(s[0]) {
      LeftStripped(s[1..], i - 1);
    }
  }

  lemma {:induction false} RightStripped(s: string)
    requires s != [] && !IsSpace(s[0])
    ensures StripRight(s) != []
  {
    if |s| > 1 {
      RightStripped(s[..|s| - 1]);
    }
  }

  lemma SlashMakesVisible(line: string, pattern: string)
    requires pattern != [] && pattern[0] == '/' && Contains(line, pattern)
    ensures !IsBlank(line)
  {
    var at := Find(line, pattern, 0).value;
    assert line[at] == line[at..at + |pattern|][0];
    LeftStripped(line, at);
    RightStripped(StripLeft(line));
  }

  lemma BlankHasNoComment(line: string)
    requires IsBlank(line)
    ensures !HasCpp(line) && !Contains(line, "/*")
  {
    if HasCpp(line) {
      SlashMakesVisible(line, "//");
    }
    if Contains(line, "/*") {
      SlashMakesVisible(line, "/*");
    }
  }

  /** The scan stops at the first line of code, or line with both kinds of comment, that is neither an
      editor's mode line nor inside a block comment. */
  lemma StopsAtFirst(lines: seq<string>, blocks: seq<Block>, open: nat, stop: nat, i: nat)
    requires Stopped(lines, blocks, open, stop) && i < stop
    requires HasBoth(lines[i]) || IsCode(lines[i])
    ensures || (i == 0 && IsModeLine(lines[0], 0)) || InsideC(lines, blocks, i)
            || (open < i && OpenOk(lines, InC, Some(open), stop))
  {
    if IsBlank(lines[i]) {
      BlankHasNoComment(lines[i]);
    }
    if i < open && InBlocks(blocks, i) {
      var k :| 0 <= k < |blocks| && blocks[k].first <= i <= blocks[k].last;
      CodeInBlock(lines, blocks[k], i);
    }
  }
}
