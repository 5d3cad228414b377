/**
 * The schema initialisation script's deterministic parts: the driver
 * address prefix, the comment and blank-line filter for TQL files, the two
 * line scanners that split seed files into statements, the
 * created/skipped/failed accounting of their writes, and the verification
 * thresholds. File contents are inputs; each write's outcome and each
 * count query's result are given by an oracle.
 */
module InitSchema {
  import opened Wrappers
  import opened Text

  // ---------------------------------------------------------------------
  // Driver address
  // ---------------------------------------------------------------------

  /** `get_driver`: an address without an http:// or https:// scheme gets https://. */
  function DriverAddress(address: string): (r: string)
  {
    if !StartsWith(address, "http://") && !StartsWith(address, "https://") then "https://" + address else address
  }

  /** The driver address always carries a scheme, keeps one that is there, and prefixing twice changes nothing. */
  lemma DriverAddressScheme(address: string)
    ensures var r := DriverAddress(address);
      (StartsWith(r, "http://") || StartsWith(r, "https://")) &&
      (StartsWith(address, "http://") || StartsWith(address, "https://") ==> r == address) &&
      (!StartsWith(address, "http://") && !StartsWith(address, "https://") ==> r == "https://" + address) &&
      DriverAddress(r) == r
  {
    var r := DriverAddress(address);
    if !StartsWith(address, "http://") && !StartsWith(address, "https://") {
      assert r[..|"https://"|] == "https://";
    }
  }

  // ---------------------------------------------------------------------
  // Comment and blank-line filter
  // ---------------------------------------------------------------------

  /** A line that carries TQL: non-blank once stripped and not a `#` comment. */
  predicate Significant(line: string)
  {
    var s := Strip(line);
    s != "" && !StartsWith(s, "#")
  }

  /** The significant lines, unchanged and in order. */
  function SignificantLines(lines: seq<string>): seq<string>
  {
    if lines == [] then []
    else SignificantLines(lines[..|lines| - 1]) + (if Significant(lines[|lines| - 1]) then [lines[|lines| - 1]] else [])
  }

  /** A line is kept exactly when it is significant, and the kept lines keep their order. */
  lemma {:induction false} SignificantLinesExact(lines: seq<string>)
    ensures forall l :: l in SignificantLines(lines) <==> l in lines && Significant(l)
    ensures |SignificantLines(lines)| <= |lines|
    decreases |lines|
  {
    if lines != [] {
      var init := lines[..|lines| - 1];
      SignificantLinesExact(init);
      assert lines == init + [lines[|lines| - 1]];
    }
  }

  /** `load_tql_file`: the significant lines of the file, joined with newlines. */
  method LoadTqlFile(content: string) returns (tql: string)
    ensures tql == Join(SignificantLines(Split(content, '\n')), "\n")
  {
    var all := Split(content, '\n');
    var lines: seq<string> := [];
    for i := 0 to |all|
      invariant lines == SignificantLines(all[..i])
    {
      assert all[..i + 1][..i] == all[..i];
      assert SignificantLines(all[..i + 1]) == SignificantLines(all[..i]) + (if Significant(all[i]) then [all[i]] else []);
      var stripped := Strip(all[i]);
      if stripped != "" && !StartsWith(stripped, "#") {
        lines := lines + [all[i]];
      }
    }
    assert all[..|all|] == all;
    tql := Join(lines, "\n");
  }

  // ---------------------------------------------------------------------
  // Statement text
  // ---------------------------------------------------------------------

  lemma PrefixTrans(s: string, p: string, q: string)
    requires StartsWith(s, p) && StartsWith(p, q)
    ensures StartsWith(s, q)
  {
    assert s[..|q|] == s[..|p|][..|q|];
  }

  /** A joined statement starts with its first line. */
  lemma JoinStartsWithHead(parts: seq<string>, sep: string)
    requires parts != []
    ensures StartsWith(Join(parts, sep), parts[0])
  {
    if |parts| > 1 {
      var rest := sep + Join(parts[1..], sep);
      assert Join(parts, sep) == parts[0] + rest;
      assert (parts[0] + rest)[..|parts[0]|] == parts[0];
    }
  }

  /** The statements as the script sends them: each one's lines joined with newlines. */
  function JoinEach(blocks: seq<seq<string>>): (stmts: seq<string>)
    ensures |stmts| == |blocks| && forall k :: 0 <= k < |blocks| ==> stmts[k] == Join(blocks[k], "\n")
  {
    seq(|blocks|, k requires 0 <= k < |blocks| => Join(blocks[k], "\n"))
  }

  lemma JoinEachSnoc(blocks: seq<seq<string>>, b: seq<string>)
    ensures JoinEach(blocks + [b]) == JoinEach(blocks) + [Join(b, "\n")]
  {
    assert forall k :: 0 <= k < |blocks| ==> (blocks + [b])[k] == blocks[k];
  }

  // ---------------------------------------------------------------------
  // Mixed insert / match-insert files
  // ---------------------------------------------------------------------

  predicate IsInsertLine(s: string)
  {
    s == "insert" || StartsWith(s, "insert ")
  }

  predicate IsMatchLine(s: string)
  {
    StartsWith(s, "match ") || s == "match"
  }

  /** The scanner's state: the bulk insert lines, the finished match-insert statements, the statement being built and the two flags. */
  datatype MixedState = MixedState(
    insertLines: seq<string>, statements: seq<seq<string>>, current: seq<string>, inInsert: bool, inMatch: bool)

  const MixedStart := MixedState([], [], [], false, false)

  /** One line of `_load_mixed_tql_file`'s scan. */
  function MixedStep(st: MixedState, line: string): (next: MixedState)
    ensures Strip(line) == "" ==> next == st
    ensures st.statements <= next.statements && st.insertLines <= next.insertLines
  {
    var s := Strip(line);
    if s == "" || StartsWith(s, "#") then st
    else if IsInsertLine(s) then
      if st.inMatch && st.current != [] then st.(current := st.current + [s])
      else st.(inInsert := true, inMatch := false, insertLines := st.insertLines + [s])
    else if IsMatchLine(s) then
      st.(inInsert := false, inMatch := true,
          statements := if st.current != [] then st.statements + [st.current] else st.statements,
          current := [s])
    else if st.inInsert then st.(insertLines := st.insertLines + [s])
    else if st.inMatch then st.(current := st.current + [s])
    else st
  }

  function MixedRun(lines: seq<string>): MixedState
  {
    if lines == [] then MixedStart else MixedStep(MixedRun(lines[..|lines| - 1]), lines[|lines| - 1])
  }

  /** The statements once the last one is flushed. */
  function MixedStatements(st: MixedState): (r: seq<seq<string>>)
    ensures MixedWellFormed(st) ==> forall k :: 0 <= k < |r| ==> r[k] != [] && IsMatchLine(r[k][0])
  {
    if st.current != [] then st.statements + [st.current] else st.statements
  }

  /** What the scan keeps true: a statement is open exactly in a match block, and every statement starts with its match line. */
  predicate MixedWellFormed(st: MixedState)
  {
    (st.inMatch <==> st.current != []) && !(st.inInsert && st.inMatch) &&
    (st.current != [] ==> IsMatchLine(st.current[0])) &&
    (forall k :: 0 <= k < |st.statements| ==> st.statements[k] != [] && IsMatchLine(st.statements[k][0]))
  }

  lemma {:induction false} MixedRunWellFormed(lines: seq<string>)
    ensures MixedWellFormed(MixedRun(lines))
    decreases |lines|
  {
    if lines != [] {
      MixedRunWellFormed(lines[..|lines| - 1]);
      MixedStepWellFormed(MixedRun(lines[..|lines| - 1]), lines[|lines| - 1]);
    }
  }

  /** One line keeps the scan well formed, and a match line opens a match block. */
  lemma MixedStepWellFormed(st: MixedState, line: string)
    requires MixedWellFormed(st)
    ensures MixedWellFormed(MixedStep(st, line))
    ensures IsMatchLine(Strip(line)) ==> MixedStep(st, line).inMatch
    ensures st.inMatch ==> MixedStep(st, line).inMatch && MixedStep(st, line).insertLines == st.insertLines
  {
    var s := Strip(line);
    var next := MixedStep(st, line);
    if s == "" || StartsWith(s, "#") {
      if IsMatchLine(s) {
        MatchLineShape(s);
      }
    } else if IsInsertLine(s) {
      if IsMatchLine(s) {
        MatchLineShape(s);
      }
      if st.inMatch && st.current != [] {
        assert next.current[0] == st.current[0];
      }
    } else if IsMatchLine(s) {
      assert next.current == [s];
      if st.current != [] {
        assert next.statements == st.statements + [st.current];
        assert forall k :: 0 <= k < |st.statements| ==> next.statements[k] == st.statements[k];
      }
    } else if st.inMatch {
      assert next.current[0] == st.current[0];
    }
  }

  /** Every match-insert statement begins with `match`. */
  lemma MatchStatementsStartWithMatch(lines: seq<string>)
    ensures var stmts := MixedStatements(MixedRun(lines));
      forall k :: 0 <= k < |stmts| ==> stmts[k] != [] && IsMatchLine(stmts[k][0]) && StartsWith(JoinEach(stmts)[k], "match")
  {
    MixedRunWellFormed(lines);
    var stmts := MixedStatements(MixedRun(lines));
    forall k | 0 <= k < |stmts| ensures StartsWith(JoinEach(stmts)[k], "match") {
      JoinStartsWithHead(stmts[k], "\n");
      var head := stmts[k][0];
      if head != "match" {
        PrefixTrans(head, "match ", "match");
      }
      PrefixTrans(JoinEach(stmts)[k], head, "match");
    }
  }

  /** Once in a match block, the scan never leaves it, so no later line reaches the bulk insert. */
  lemma {:induction false} MatchBlockAbsorbs(st: MixedState, more: seq<string>)
    requires MixedWellFormed(st) && st.inMatch
    ensures var after := MixedRunFrom(st, more);
      after.inMatch && MixedWellFormed(after) && after.insertLines == st.insertLines
    decreases |more|
  {
    if more != [] {
      MatchBlockAbsorbs(st, more[..|more| - 1]);
      MixedStepWellFormed(MixedRunFrom(st, more[..|more| - 1]), more[|more| - 1]);
    }
  }

  /** The scan continued from a state. */
  function MixedRunFrom(st: MixedState, lines: seq<string>): MixedState
  {
    if lines == [] then st else MixedStep(MixedRunFrom(st, lines[..|lines| - 1]), lines[|lines| - 1])
  }

  lemma {:induction false} MixedRunSplit(a: seq<string>, b: seq<string>)
    ensures MixedRun(a + b) == MixedRunFrom(MixedRun(a), b)
    decreases |b|
  {
    if b == [] {
      assert a + b == a;
    } else {
      assert (a + b)[..|a + b| - 1] == a + b[..|b| - 1];
      MixedRunSplit(a, b[..|b| - 1]);
    }
  }

  /** A file whose lines so far hold a match line sends none of its later lines to the bulk insert. */
  lemma NoInsertAfterMatch(a: seq<string>, b: seq<string>)
    requires HasMatchLine(a)
    ensures MixedRun(a + b).insertLines == MixedRun(a).insertLines
  {
    MixedSeesMatch(a);
    MixedRunWellFormed(a);
    MixedRunSplit(a, b);
    MatchBlockAbsorbs(MixedRun(a), b);
  }

  /** Some line of the file, stripped, is a match line. */
  predicate HasMatchLine(a: seq<string>)
  {
    exists i :: 0 <= i < |a| && IsMatchLine(Strip(a[i]))
  }

  lemma {:induction false} MixedSeesMatch(a: seq<string>)
    requires HasMatchLine(a)
    ensures MixedRun(a).inMatch
    decreases |a|
  {
    var init := a[..|a| - 1];
    var last := a[|a| - 1];
    assert MixedRun(a) == MixedStep(MixedRun(init), last);
    MixedRunWellFormed(init);
    MixedStepWellFormed(MixedRun(init), last);
    if !IsMatchLine(Strip(last)) {
      HasMatchLineInit(a);
      MixedSeesMatch(init);
    }
  }

  lemma HasMatchLineInit(a: seq<string>)
    requires HasMatchLine(a) && !IsMatchLine(Strip(a[|a| - 1]))
    ensures HasMatchLine(a[..|a| - 1])
  {
    var i :| 0 <= i < |a| && IsMatchLine(Strip(a[i]));
    assert i < |a| - 1;
    var init := a[..|a| - 1];
    assert init[i] == a[i];
    assert 0 <= i < |init| && IsMatchLine(Strip(init[i]));
  }

  /** A match line is neither blank, a comment, nor an insert line. */
  lemma MatchLineShape(s: string)
    requires IsMatchLine(s)
    ensures s != "" && !StartsWith(s, "#") && !IsInsertLine(s)
  {
    assert s[0] == 'm';
    assert "insert"[0] == 'i' && "insert "[0] == 'i' && "#"[0] == '#';
  }

  /** Lines before the first insert or match line belong to no block and are dropped. */
  lemma {:induction false} LeadingLinesDropped(lines: seq<string>)
    requires forall i :: 0 <= i < |lines| ==> !IsInsertLine(Strip(lines[i])) && !IsMatchLine(Strip(lines[i]))
    ensures MixedRun(lines) == MixedStart
    decreases |lines|
  {
    if lines != [] {
      LeadingLinesDropped(lines[..|lines| - 1]);
    }
  }

  /** `_load_mixed_tql_file`'s scan: the bulk insert lines and the match-insert statements. */
  method SplitMixed(content: string) returns (insertLines: seq<string>, matchStatements: seq<string>)
    ensures var st := MixedRun(Split(content, '\n'));
      insertLines == st.insertLines && matchStatements == JoinEach(MixedStatements(st))
  {
    var lines := Split(content, '\n');
    insertLines := [];
    matchStatements := [];
    ghost var blocks: seq<seq<string>> := [];
    var current: seq<string> := [];
    var inInsertBlock := false;
    var inMatchBlock := false;
    for i := 0 to |lines|
      invariant MixedState(insertLines, blocks, current, inInsertBlock, inMatchBlock) == MixedRun(lines[..i])
      invariant matchStatements == JoinEach(blocks)
    {
      assert lines[..i + 1][..i] == lines[..i];
      assert MixedRun(lines[..i + 1]) == MixedStep(MixedRun(lines[..i]), lines[i]);
      var stripped := Strip(lines[i]);
      if stripped == "" || StartsWith(stripped, "#") {
        continue;
      }
      if stripped == "insert" || StartsWith(stripped, "insert ") {
        if inMatchBlock && current != [] {
          current := current + [stripped];
          continue;
        }
        inInsertBlock := true;
        inMatchBlock := false;
        insertLines := insertLines + [stripped];
        continue;
      }
      if StartsWith(stripped, "match ") || stripped == "match" {
        inInsertBlock := false;
        inMatchBlock := true;
        if current != [] {
          JoinEachSnoc(blocks, current);
          matchStatements := matchStatements + [Join(current, "\n")];
          blocks := blocks + [current];
        }
        current := [stripped];
        continue;
      }
      if inInsertBlock {
        insertLines := insertLines + [stripped];
      } else if inMatchBlock {
        current := current + [stripped];
      }
    }
    assert lines[..|lines|] == lines;
    if current != [] {
      JoinEachSnoc(blocks, current);
      matchStatements := matchStatements + [Join(current, "\n")];
      blocks := blocks + [current];
    }
  }

  // ---------------------------------------------------------------------
  // Multi-insert files
  // ---------------------------------------------------------------------

  /** The multi-insert scan: the finished statements and the one being built. */
  datatype MultiState = MultiState(statements: seq<seq<string>>, current: seq<string>)

  /** One line of `_load_multi_insert_file`'s scan: a line starting with `insert` closes the open statement. */
  function MultiStep(st: MultiState, line: string): (next: MultiState)
    ensures Strip(line) == "" ==> next == st
    ensures st.statements <= next.statements
    ensures Strip(line) != "" && !StartsWith(Strip(line), "#") ==> next.current != [] && next.current[|next.current| - 1] == Strip(line)
  {
    var s := Strip(line);
    if s == "" || StartsWith(s, "#") then st
    else if StartsWith(s, "insert") && st.current != [] then MultiState(st.statements + [st.current], [s])
    else st.(current := st.current + [s])
  }

  function MultiRun(lines: seq<string>): MultiState
  {
    if lines == [] then MultiState([], []) else MultiStep(MultiRun(lines[..|lines| - 1]), lines[|lines| - 1])
  }

  function MultiStatements(st: MultiState): seq<seq<string>>
  {
    if st.current != [] then st.statements + [st.current] else st.statements
  }

  /** The stripped significant lines, in order. */
  function StrippedSignificant(lines: seq<string>): seq<string>
  {
    if lines == [] then []
    else StrippedSignificant(lines[..|lines| - 1]) + (if Significant(lines[|lines| - 1]) then [Strip(lines[|lines| - 1])] else [])
  }

  function Flatten(blocks: seq<seq<string>>): seq<string>
  {
    if blocks == [] then [] else Flatten(blocks[..|blocks| - 1]) + blocks[|blocks| - 1]
  }

  lemma FlattenSnoc(blocks: seq<seq<string>>, b: seq<string>)
    ensures Flatten(blocks + [b]) == Flatten(blocks) + b
  {
    assert (blocks + [b])[..|blocks|] == blocks;
  }

  /**
   * The statements are non-empty, only their first lines may start with
   * `insert` (and every one after the first does), and read one after the
   * other they are exactly the stripped significant lines.
   */
  predicate MultiShape(st: MultiState)
  {
    (st.statements != [] ==> st.current != []) &&
    (forall k :: 0 <= k < |st.statements| ==> st.statements[k] != []) &&
    (forall k :: 1 <= k < |st.statements| ==> StartsWith(st.statements[k][0], "insert")) &&
    (st.statements != [] ==> StartsWith(st.current[0], "insert")) &&
    (forall k, j :: 0 <= k < |st.statements| && 1 <= j < |st.statements[k]| ==> !StartsWith(st.statements[k][j], "insert")) &&
    (forall j :: 1 <= j < |st.current| ==> !StartsWith(st.current[j], "insert"))
  }

  predicate MultiWellFormed(st: MultiState, lines: seq<string>)
  {
    Flatten(st.statements) + st.current == StrippedSignificant(lines) && MultiShape(st)
  }

  lemma {:induction false} MultiRunWellFormed(lines: seq<string>)
    ensures MultiWellFormed(MultiRun(lines), lines)
    decreases |lines|
  {
    if lines != [] {
      var init := lines[..|lines| - 1];
      var last := lines[|lines| - 1];
      MultiRunWellFormed(init);
      assert MultiRun(lines) == MultiStep(MultiRun(init), last);
      assert StrippedSignificant(lines) == StrippedSignificant(init) + (if Significant(last) then [Strip(last)] else []);
      MultiStepShape(MultiRun(init), last);
      MultiStepLines(MultiRun(init), last);
    }
  }

  /** One line keeps the statements' shape. */
  lemma MultiStepShape(st: MultiState, line: string)
    requires MultiShape(st)
    ensures MultiShape(MultiStep(st, line))
  {
    var s := Strip(line);
    var next := MultiStep(st, line);
    if s == "" || StartsWith(s, "#") {
      assert next == st;
    } else if StartsWith(s, "insert") && st.current != [] {
      assert next == MultiState(st.statements + [st.current], [s]);
      assert forall k :: 0 <= k < |st.statements| ==> next.statements[k] == st.statements[k];
    } else {
      assert next == st.(current := st.current + [s]);
      if st.current != [] {
        assert next.current[0] == st.current[0];
      }
    }
  }

  /** One line appends its stripped text, if significant, to the statements' lines. */
  lemma MultiStepLines(st: MultiState, line: string)
    ensures var next := MultiStep(st, line);
      Flatten(next.statements) + next.current == Flatten(st.statements) + st.current + (if Significant(line) then [Strip(line)] else [])
  {
    var s := Strip(line);
    if s != "" && !StartsWith(s, "#") && StartsWith(s, "insert") && st.current != [] {
      FlattenSnoc(st.statements, st.current);
    }
  }

  /** The multi-insert statements, read one after the other, are the stripped significant lines; each after the first opens with `insert`. */
  lemma MultiStatementsExact(lines: seq<string>)
    ensures var stmts := MultiStatements(MultiRun(lines));
      Flatten(stmts) == StrippedSignificant(lines) &&
      (forall k :: 0 <= k < |stmts| ==> stmts[k] != []) &&
      (forall k :: 1 <= k < |stmts| ==> StartsWith(stmts[k][0], "insert")) &&
      (forall k, j :: 0 <= k < |stmts| && 1 <= j < |stmts[k]| ==> !StartsWith(stmts[k][j], "insert"))
  {
    MultiRunWellFormed(lines);
    FlushedShape(MultiRun(lines), StrippedSignificant(lines));
  }

  /** Flushing the open statement keeps the shape: the statements then hold all the lines, and none is empty. */
  lemma FlushedShape(st: MultiState, all: seq<string>)
    requires Flatten(st.statements) + st.current == all && MultiShape(st)
    ensures var stmts := MultiStatements(st);
      Flatten(stmts) == all &&
      (forall k :: 0 <= k < |stmts| ==> stmts[k] != []) &&
      (forall k :: 1 <= k < |stmts| ==> StartsWith(stmts[k][0], "insert")) &&
      (forall k, j :: 0 <= k < |stmts| && 1 <= j < |stmts[k]| ==> !StartsWith(stmts[k][j], "insert"))
  {
    var stmts := MultiStatements(st);
    if st.current != [] {
      FlattenSnoc(st.statements, st.current);
      var n := |st.statements|;
      assert stmts == st.statements + [st.current];
      assert forall k :: 0 <= k < n ==> stmts[k] == st.statements[k];
      assert stmts[n] == st.current;
    } else {
      assert st.statements == [] && stmts == [];
    }
  }

  /** `_load_multi_insert_file`'s scan. */
  method SplitMultiInsert(content: string) returns (statements: seq<string>)
    ensures statements == JoinEach(MultiStatements(MultiRun(Split(content, '\n'))))
  {
    var lines := Split(content, '\n');
    statements := [];
    ghost var blocks: seq<seq<string>> := [];
    var current: seq<string> := [];
    for i := 0 to |lines|
      invariant MultiState(blocks, current) == MultiRun(lines[..i])
      invariant statements == JoinEach(blocks)
    {
      assert lines[..i + 1][..i] == lines[..i];
      assert MultiRun(lines[..i + 1]) == MultiStep(MultiRun(lines[..i]), lines[i]);
      var stripped := Strip(lines[i]);
      if stripped == "" || StartsWith(stripped, "#") {
        continue;
      }
      if StartsWith(stripped, "insert") && current != [] {
        JoinEachSnoc(blocks, current);
        statements := statements + [Join(current, "\n")];
        blocks := blocks + [current];
        current := [stripped];
      } else {
        current := current + [stripped];
      }
    }
    assert lines[..|lines|] == lines;
    if current != [] {
      JoinEachSnoc(blocks, current);
      statements := statements + [Join(current, "\n")];
      blocks := blocks + [current];
    }
  }

  // ---------------------------------------------------------------------
  // Write outcomes
  // ---------------------------------------------------------------------

  /** What one write transaction does: commits, or raises with a message. */
  datatype Outcome = Committed | Raised(message: string)

  datatype Tally = Created | Skipped | Failed

  /**
   * How a write counts: a commit is created; an error whose lower-cased
   * message mentions "already" or "duplicate" (or "unique", for
   * match-inserts) is skipped; anything else failed.
   */
  function Classify(o: Outcome, uniqueSkips: bool): Tally
  {
    match o
    case Committed => Created
    case Raised(message) =>
      var m := Lower(message);
      if Contains(m, "already") || Contains(m, "duplicate") || (uniqueSkips && Contains(m, "unique")) then Skipped else Failed
  }

  /** How many of the first `n` writes count as `t`. */
  function CountOf(outcome: nat -> Outcome, n: nat, t: Tally, uniqueSkips: bool): nat
  {
    if n == 0 then 0 else CountOf(outcome, n - 1, t, uniqueSkips) + (if Classify(outcome(n - 1), uniqueSkips) == t then 1 else 0)
  }

  lemma {:induction false} CountsPartition(outcome: nat -> Outcome, n: nat, uniqueSkips: bool)
    ensures CountOf(outcome, n, Created, uniqueSkips) + CountOf(outcome, n, Skipped, uniqueSkips) + CountOf(outcome, n, Failed, uniqueSkips) == n
  {
    if n > 0 {
      CountsPartition(outcome, n - 1, uniqueSkips);
    }
  }

  datatype Counters = Counters(created: nat, skipped: nat, failed: nat)

  /**
   * The write loop shared by both loaders: one transaction per statement,
   * `outcome(i)` saying how the i-th one ended. Every statement lands in
   * exactly one counter.
   */
  method RunStatements(statements: seq<string>, outcome: nat -> Outcome, uniqueSkips: bool) returns (c: Counters)
    ensures c.created == CountOf(outcome, |statements|, Created, uniqueSkips)
    ensures c.skipped == CountOf(outcome, |statements|, Skipped, uniqueSkips)
    ensures c.failed == CountOf(outcome, |statements|, Failed, uniqueSkips)
    ensures c.created + c.skipped + c.failed == |statements|
  {
    var created, skipped, failed := 0, 0, 0;
    for i := 0 to |statements|
      invariant created == CountOf(outcome, i, Created, uniqueSkips)
      invariant skipped == CountOf(outcome, i, Skipped, uniqueSkips)
      invariant failed == CountOf(outcome, i, Failed, uniqueSkips)
    {
      match outcome(i)
      case Committed =>
        created := created + 1;
      case Raised(message) =>
        var errorMsg := Lower(message);
        if Contains(errorMsg, "already") || Contains(errorMsg, "duplicate") || (uniqueSkips && Contains(errorMsg, "unique")) {
          skipped := skipped + 1;
        } else {
          failed := failed + 1;
        }
    }
    CountsPartition(outcome, |statements|, uniqueSkips);
    c := Counters(created, skipped, failed);
  }

  /** What became of a mixed file's bulk insert block. */
  datatype BlockStatus = NoBlock | BlockInserted | BlockExisted | BlockError

  datatype MixedReport = MixedReport(block: BlockStatus, counters: Counters)

  /**
   * `_load_mixed_tql_file`: the bulk insert block runs once, if it has any
   * lines ("already" or "duplicate" errors meaning it exists), then every
   * match-insert statement runs in its own transaction.
   */
  method LoadMixedTqlFile(content: string, blockOutcome: Outcome, outcome: nat -> Outcome) returns (report: MixedReport)
    ensures var st := MixedRun(Split(content, '\n'));
      (report.block == NoBlock <==> st.insertLines == []) &&
      (st.insertLines != [] ==> report.block == match Classify(blockOutcome, false)
        case Created => BlockInserted case Skipped => BlockExisted case Failed => BlockError) &&
      report.counters.created + report.counters.skipped + report.counters.failed == |MixedStatements(st)|
    ensures var n := |MixedStatements(MixedRun(Split(content, '\n')))|;
      report.counters == Counters(CountOf(outcome, n, Created, true), CountOf(outcome, n, Skipped, true), CountOf(outcome, n, Failed, true))
  {
    var insertLines, statements := SplitMixed(content);
    var block := NoBlock;
    if insertLines != [] {
      match blockOutcome
      case Committed =>
        block := BlockInserted;
      case Raised(message) =>
        var errorMsg := Lower(message);
        block := if Contains(errorMsg, "already") || Contains(errorMsg, "duplicate") then BlockExisted else BlockError;
    }
    var counters := RunStatements(statements, outcome, true);
    report := MixedReport(block, counters);
  }

  /** `_load_multi_insert_file`: every statement runs in its own transaction; "unique" errors are failures here. */
  method LoadMultiInsertFile(content: string, outcome: nat -> Outcome) returns (counters: Counters)
    ensures var n := |MultiStatements(MultiRun(Split(content, '\n')))|;
      counters.created + counters.skipped + counters.failed == n
    ensures var n := |MultiStatements(MultiRun(Split(content, '\n')))|;
      counters == Counters(CountOf(outcome, n, Created, false), CountOf(outcome, n, Skipped, false), CountOf(outcome, n, Failed, false))
  {
    var statements := SplitMultiInsert(content);
    counters := RunStatements(statements, outcome, false);
  }

  // ---------------------------------------------------------------------
  // Verification counts
  // ---------------------------------------------------------------------

  /** The entity counts checked after seeding, each with its minimum. */
  const Checks: seq<(string, nat)> := [
    ("Concepts", 20), ("Questions", 80), ("Categories", 15), ("Extraction metadata", 20), ("IP types", 5), ("Party types", 3)]

  predicate CheckPasses(count: Option<nat>, minimum: nat)
  {
    count.Some? && count.value >= minimum
  }

  /**
   * The verification loop: `count(i)` is what the i-th count query
   * returned, None when it raised; all is well only when every count
   * reaches its minimum.
   */
  method VerifyCounts(count: nat -> Option<nat>) returns (allOk: bool)
    ensures allOk <==> forall i :: 0 <= i < |Checks| ==> CheckPasses(count(i), Checks[i].1)
  {
    allOk := true;
    for i := 0 to |Checks|
      invariant allOk <==> forall k :: 0 <= k < i ==> CheckPasses(count(k), Checks[k].1)
    {
      var minExpected := Checks[i].1;
      match count(i)
      case Some(n) =>
        if n < minExpected {
          allOk := false;
        }
      case None =>
        allOk := false;
    }
  }
}
