// hack/generate_coreruleset_configmaps.py: turning CoreRuleSet rule files into
// ConfigMaps. File reading and printing are left to the caller: a file is its
// name and its content, or None when it could not be read.
module CrsGenerator {
  import opened Wrappers
  import opened Strings
  import opened Seqs

  // ---------------------------------------------------------------------------
  // Text helpers: regex classes (ASCII), Python's str.lower and str.splitlines
  // ---------------------------------------------------------------------------

  /** \w, over ASCII. */
  predicate IsWordChar(c: char)
  {
    ('a' <= c <= 'z') || ('A' <= c <= 'Z') || ('0' <= c <= '9') || c == '_'
  }

  predicate IsLowerAlnum(c: char)
  {
    ('a' <= c <= 'z') || ('0' <= c <= '9')
  }

  /** The characters a ConfigMap name may hold: [a-z0-9.-]. */
  predicate IsNameChar(c: char)
  {
    IsLowerAlnum(c) || c == '.' || c == '-'
  }

  function LowerChar(c: char): char
  {
    if 'A' <= c <= 'Z' then (c as int - 'A' as int + 'a' as int) as char else c
  }

  /** str.lower, for ASCII letters. */
  function Lower(s: string): (r: string)
    ensures |r| == |s|
    ensures forall i :: 0 <= i < |s| ==> r[i] == LowerChar(s[i])
  {
    seq(|s|, i requires 0 <= i < |s| => LowerChar(s[i]))
  }

  /** The line boundaries str.splitlines recognises. */
  predicate IsLineBoundary(c: char)
  {
    (0x0A <= c as int <= 0x0D) || (0x1C <= c as int <= 0x1E) || c as int == 0x85
    || c as int == 0x2028 || c as int == 0x2029
  }

  /** The index of the first line boundary at or after i, or |s|. */
  function NextBoundary(s: string, i: nat): (j: nat)
    requires i <= |s|
    ensures i <= j <= |s|
    ensures j < |s| ==> IsLineBoundary(s[j])
    ensures forall k :: i <= k < j ==> !IsLineBoundary(s[k])
    decreases |s| - i
  {
    if i == |s| || IsLineBoundary(s[i]) then i else NextBoundary(s, i + 1)
  }

  /** str.splitlines(): \r\n counts as one boundary, no trailing empty line. */
  function SplitLines(s: string): (lines: seq<string>)
    ensures forall k :: 0 <= k < |lines| ==> forall x :: 0 <= x < |lines[k]| ==> !IsLineBoundary(lines[k][x])
    decreases |s|
  {
    if |s| == 0 then []
    else
      var j := NextBoundary(s, 0);
      if j == |s| then [s]
      else
        var width := if s[j] == '\r' && j + 1 < |s| && s[j + 1] == '\n' then 2 else 1;
        [s[..j]] + SplitLines(s[j + width..])
  }

  // ---------------------------------------------------------------------------
  // split_into_rules
  // ---------------------------------------------------------------------------

  /** re.match(r'^(SecRule|SecAction|SecMarker)\b', s). */
  predicate StartsDirective(s: string)
  {
    StartsWord(s, "SecRule") || StartsWord(s, "SecAction") || StartsWord(s, "SecMarker")
  }

  /** s starts with the word w: a prefix followed by a non-word character or the end (\b). */
  predicate StartsWord(s: string, w: string)
  {
    HasPrefix(s, w) && (|s| == |w| || !IsWordChar(s[|w|]))
  }

  /** A line that opens a directive block. */
  predicate IsDirectiveLine(line: string)
  {
    var stripped := RStrip(line);
    !HasPrefix(stripped, "#") && StartsDirective(stripped)
  }

  /** A line whose block goes on to the next line. */
  predicate Continues(line: string)
  {
    HasSuffix(RStrip(line), "\\")
  }

  /** The loop state: the blocks so far (as line groups), the open block and in_multiline. */
  datatype SplitState = SplitState(groups: seq<seq<string>>, current: seq<string>, inMultiline: bool)

  /** One turn of the loop. */
  function Step(st: SplitState, line: string): SplitState
  {
    if st.inMultiline then
      var cur := st.current + [line];
      if !Continues(line) then SplitState(st.groups + [cur], [], false) else SplitState(st.groups, cur, true)
    else if IsDirectiveLine(line) then
      if Continues(line) then SplitState(st.groups, [line], true) else SplitState(st.groups + [[line]], [], false)
    else SplitState(st.groups + [[line]], st.current, st.inMultiline)
  }

  function Scan(lines: seq<string>): SplitState
  {
    if |lines| == 0 then SplitState([], [], false) else Step(Scan(lines[..|lines| - 1]), lines[|lines| - 1])
  }

  /** The line groups of the blocks, the open block included. */
  function Groups(lines: seq<string>): seq<seq<string>>
  {
    var st := Scan(lines);
    st.groups + (if |st.current| > 0 then [st.current] else [])
  }

  function JoinEach(groups: seq<seq<string>>): (blocks: seq<string>)
    ensures |blocks| == |groups|
    ensures forall i :: 0 <= i < |groups| ==> blocks[i] == Join(groups[i], "\n")
  {
    seq(|groups|, i requires 0 <= i < |groups| => Join(groups[i], "\n"))
  }

  lemma ScanPrefix(lines: seq<string>, i: int)
    requires 0 <= i < |lines|
    ensures Scan(lines[..i + 1]) == Step(Scan(lines[..i]), lines[i])
  {
    assert lines[..i + 1][..i] == lines[..i];
  }

  lemma JoinEachSnoc(groups: seq<seq<string>>, g: seq<string>)
    ensures JoinEach(groups + [g]) == JoinEach(groups) + [Join(g, "\n")]
  {
    assert forall i :: 0 <= i < |groups| ==> (groups + [g])[i] == groups[i];
  }

  /** split_into_rules. */
  function SplitIntoRules(content: string): seq<string>
  {
    JoinEach(Groups(Split(content, '\n')))
  }

  function Concat(groups: seq<seq<string>>): seq<string>
  {
    if |groups| == 0 then [] else groups[0] + Concat(groups[1..])
  }

  lemma {:induction false} ConcatSnoc(groups: seq<seq<string>>, g: seq<string>)
    ensures Concat(groups + [g]) == Concat(groups) + g
  {
    if |groups| == 0 {
      assert groups + [g] == [g];
      assert Concat([g][1..]) == [];
    } else {
      assert (groups + [g])[1..] == groups[1..] + [g];
      ConcatSnoc(groups[1..], g);
    }
  }

  /** A finished block: every line but the last continues; a directive block
      ends at a line that does not continue, and any other line is a block of
      its own. */
  predicate ClosedGroup(g: seq<string>)
  {
    |g| >= 1
    && (forall k :: 0 <= k < |g| - 1 ==> Continues(g[k]))
    && (if IsDirectiveLine(g[0]) then !Continues(g[|g| - 1]) else |g| == 1)
  }

  /** A directive block still open: every line so far continues. */
  predicate OpenGroup(g: seq<string>)
  {
    |g| >= 1 && IsDirectiveLine(g[0]) && forall k :: 0 <= k < |g| ==> Continues(g[k])
  }

  predicate ScanInvariant(st: SplitState, lines: seq<string>)
  {
    Concat(st.groups) + st.current == lines
    && (forall k :: 0 <= k < |st.groups| ==> ClosedGroup(st.groups[k]))
    && (st.inMultiline <==> st.current != [])
    && (st.inMultiline ==> OpenGroup(st.current))
  }

  lemma AppendClosed(groups: seq<seq<string>>, g: seq<string>)
    requires forall k :: 0 <= k < |groups| ==> ClosedGroup(groups[k])
    requires ClosedGroup(g)
    ensures forall k :: 0 <= k < |groups + [g]| ==> ClosedGroup((groups + [g])[k])
  {
  }

  lemma ContinueOpen(cur: seq<string>, line: string)
    requires OpenGroup(cur)
    ensures !Continues(line) ==> ClosedGroup(cur + [line])
    ensures Continues(line) ==> OpenGroup(cur + [line])
  {
    assert (cur + [line])[0] == cur[0];
    assert forall k :: 0 <= k < |cur| ==> (cur + [line])[k] == cur[k];
  }

  lemma SingleLine(line: string)
    ensures !(IsDirectiveLine(line) && Continues(line)) ==> ClosedGroup([line])
    ensures IsDirectiveLine(line) && Continues(line) ==> OpenGroup([line])
  {
  }

  /** One turn of the loop keeps the invariant. */
  lemma StepKeepsInvariant(st: SplitState, done: seq<string>, line: string)
    requires ScanInvariant(st, done)
    ensures ScanInvariant(Step(st, line), done + [line])
  {
    if st.inMultiline {
      StepInMultiline(st, done, line);
    } else if IsDirectiveLine(line) && Continues(line) {
      SingleLine(line);
      assert Step(st, line) == SplitState(st.groups, [line], true);
    } else {
      StepSingleBlock(st, done, line);
    }
  }

  /** Inside a directive block the line joins it, and closes it unless it
      continues. */
  lemma StepInMultiline(st: SplitState, done: seq<string>, line: string)
    requires ScanInvariant(st, done) && st.inMultiline
    ensures ScanInvariant(Step(st, line), done + [line])
  {
    var cur := st.current + [line];
    ContinueOpen(st.current, line);
    assert Concat(st.groups) + cur == done + [line];
    if !Continues(line) {
      assert Step(st, line) == SplitState(st.groups + [cur], [], false);
      ConcatSnoc(st.groups, cur);
      AppendClosed(st.groups, cur);
    } else {
      assert Step(st, line) == SplitState(st.groups, cur, true);
    }
  }

  /** Outside a block, a line that does not open a continuing directive is a
      block of its own. */
  lemma StepSingleBlock(st: SplitState, done: seq<string>, line: string)
    requires ScanInvariant(st, done) && !st.inMultiline
    requires !(IsDirectiveLine(line) && Continues(line))
    ensures ScanInvariant(Step(st, line), done + [line])
  {
    var next := SplitState(st.groups + [[line]], [], false);
    assert ScanInvariant(next, done + [line]) by {
      SingleLine(line);
      ConcatSnoc(st.groups, [line]);
      AppendClosed(st.groups, [line]);
    }
    assert Step(st, line) == next;
  }

  lemma {:induction false} ScanKeepsInvariant(lines: seq<string>)
    ensures ScanInvariant(Scan(lines), lines)
  {
    if |lines| > 0 {
      var init, line := lines[..|lines| - 1], lines[|lines| - 1];
      assert lines == init + [line];
      ScanKeepsInvariant(init);
      var st := Scan(init);
      assert Scan(lines) == Step(st, line);
      StepKeepsInvariant(st, init, line);
    }
  }

  lemma {:induction false} JoinConcat(a: seq<string>, b: seq<string>, sep: string)
    requires |a| >= 1 && |b| >= 1
    ensures Join(a + b, sep) == Join(a, sep) + sep + Join(b, sep)
  {
    if |a| == 1 {
      assert (a + b)[0] == a[0] && (a + b)[1..] == b;
    } else {
      assert (a + b)[0] == a[0] && (a + b)[1..] == a[1..] + b;
      JoinConcat(a[1..], b, sep);
    }
  }

  lemma {:induction false} ConcatNonEmpty(groups: seq<seq<string>>)
    requires |groups| >= 1 && forall k :: 0 <= k < |groups| ==> |groups[k]| >= 1
    ensures |Concat(groups)| >= 1
  {
  }

  /** Joining the joined groups is joining all their lines. */
  lemma {:induction false} JoinOfJoins(groups: seq<seq<string>>)
    requires forall k :: 0 <= k < |groups| ==> |groups[k]| >= 1
    ensures Join(JoinEach(groups), "\n") == Join(Concat(groups), "\n")
  {
    if |groups| == 1 {
      assert Concat(groups) == groups[0] + Concat(groups[1..]);
      assert groups[0] + [] == groups[0];
    } else if |groups| > 1 {
      var rest := groups[1..];
      JoinOfJoins(rest);
      assert JoinEach(groups)[1..] == JoinEach(rest);
      ConcatNonEmpty(rest);
      JoinConcat(groups[0], Concat(rest), "\n");
    }
  }

  /** Every line lands in exactly one block, in order: joining the blocks with
      newlines gives the content back. */
  lemma SplitIntoRulesRoundTrip(content: string)
    ensures Join(SplitIntoRules(content), "\n") == content
  {
    var lines := Split(content, '\n');
    var st := Scan(lines);
    ScanKeepsInvariant(lines);
    var groups := Groups(lines);
    if |st.current| > 0 {
      ConcatSnoc(st.groups, st.current);
    } else {
      assert st.groups + [] == st.groups;
    }
    assert Concat(groups) == lines;
    JoinOfJoins(groups);
    JoinSplit(content, '\n');
  }

  /** The shape of every block: all are finished blocks, except that a
      directive still continuing at the end of the input is emitted as the
      last block. */
  lemma GroupsShape(lines: seq<string>)
    ensures var groups := Groups(lines);
      Concat(groups) == lines
      && (forall k :: 0 <= k < |groups| - 1 ==> ClosedGroup(groups[k]))
      && (|groups| > 0 ==> ClosedGroup(groups[|groups| - 1]) || OpenGroup(groups[|groups| - 1]))
  {
    var st := Scan(lines);
    ScanKeepsInvariant(lines);
    if |st.current| > 0 {
      ConcatSnoc(st.groups, st.current);
    } else {
      assert st.groups + [] == st.groups;
    }
  }

  /** split_into_rules as it runs: the loop over the lines. */
  method SplitIntoRulesLoop(content: string) returns (blocks: seq<string>)
    ensures blocks == SplitIntoRules(content)
  {
    var lines := Split(content, '\n');
    blocks := [];
    var current: seq<string> := [];
    var inMultiline := false;
    ghost var groups: seq<seq<string>> := [];
    var i := 0;
    while i < |lines|
      invariant 0 <= i <= |lines|
      invariant Scan(lines[..i]) == SplitState(groups, current, inMultiline)
      invariant blocks == JoinEach(groups)
    {
      var line := lines[i];
      ScanPrefix(lines, i);
      if inMultiline {
        current := current + [line];
        if !Continues(line) {
          inMultiline := false;
          JoinEachSnoc(groups, current);
          blocks := blocks + [Join(current, "\n")];
          groups := groups + [current];
          current := [];
        }
      } else if IsDirectiveLine(line) {
        current := [line];
        if Continues(line) {
          inMultiline := true;
        } else {
          JoinEachSnoc(groups, current);
          blocks := blocks + [Join(current, "\n")];
          groups := groups + [current];
          current := [];
        }
      } else {
        JoinEachSnoc(groups, [line]);
        assert Join([line], "\n") == line;
        blocks := blocks + [line];
        groups := groups + [[line]];
      }
      i := i + 1;
    }
    assert lines[..i] == lines;
    if |current| > 0 {
      JoinEachSnoc(groups, current);
      blocks := blocks + [Join(current, "\n")];
      groups := groups + [current];
    } else {
      assert groups + [] == groups;
    }
    assert groups == Groups(lines);
  }

  // ---------------------------------------------------------------------------
  // extract_rule_id
  // ---------------------------------------------------------------------------

  /** re.search(r'id:(\d+)') matches at i. */
  predicate IdAt(text: string, i: int)
  {
    0 <= i && i + 3 < |text| && text[i..i + 3] == "id:" && IsDigit(text[i + 3])
  }

  /** The end of the run of digits starting at i. */
  function DigitsEnd(text: string, i: nat): (j: nat)
    requires i <= |text|
    ensures i <= j <= |text|
    ensures forall k :: i <= k < j ==> IsDigit(text[k])
    ensures j < |text| ==> !IsDigit(text[j])
    decreases |text| - i
  {
    if i < |text| && IsDigit(text[i]) then DigitsEnd(text, i + 1) else i
  }

  function FindId(text: string, i: nat): (r: Option<nat>)
    requires i <= |text|
    ensures r.Some? ==> i <= r.value && IdAt(text, r.value)
    decreases |text| - i
  {
    if i == |text| then None
    else if IdAt(text, i) then Some(i)
    else FindId(text, i + 1)
  }

  lemma {:induction false} FindIdFirst(text: string, i: nat)
    requires i <= |text|
    ensures match FindId(text, i)
      case None => forall k :: i <= k < |text| ==> !IdAt(text, k)
      case Some(p) => i <= p && IdAt(text, p) && forall k :: i <= k < p ==> !IdAt(text, k)
    decreases |text| - i
  {
    if i < |text| && !IdAt(text, i) {
      FindIdFirst(text, i + 1);
    }
  }

  /** extract_rule_id. */
  function ExtractRuleId(text: string): string
  {
    match FindId(text, 0)
    case None => "unknown"
    case Some(p) => text[p + 3..DigitsEnd(text, p + 3)]
  }

  /** The id is the whole run of digits after the leftmost "id:" that is
      followed by a digit, or "unknown" when there is none. */
  lemma ExtractRuleIdSpec(text: string)
    ensures var id := ExtractRuleId(text);
      (id == "unknown" <==> forall k :: 0 <= k < |text| ==> !IdAt(text, k))
      && (id != "unknown" ==>
        exists p :: IdAt(text, p) && (forall k :: 0 <= k < p ==> !IdAt(text, k)) && IdDigitsAt(text, p, id))
  {
    FindIdFirst(text, 0);
    match FindId(text, 0)
    case None =>
    case Some(p) =>
      var id := ExtractRuleId(text);
      assert IsDigit(id[0]) && !IsDigit('u');
      assert IdDigitsAt(text, p, id);
  }

  /** id is the maximal run of digits right after the "id:" at p. */
  predicate IdDigitsAt(text: string, p: int, id: string)
  {
    0 <= p && p + 3 + |id| <= |text| && |id| >= 1
    && text[p + 3..p + 3 + |id|] == id && AllDigits(id)
    && (p + 3 + |id| == |text| || !IsDigit(text[p + 3 + |id|]))
  }

  // ---------------------------------------------------------------------------
  // process_file_content
  // ---------------------------------------------------------------------------

  datatype Removed = Removed(ruleId: string, reason: string)

  datatype Disposition = Keep | Drop(removed: Removed)

  /** A Sec* directive block. */
  predicate IsSecBlock(block: string)
  {
    var s := Strip(block);
    s != "" && !HasPrefix(s, "#") && HasPrefix(s, "Sec")
  }

  /** What the loop does with one block. */
  function Dispose(block: string, ignoreRuleIds: set<string>, ignorePmFromFile: bool): (d: Disposition)
    ensures d.Drop? ==> IsSecBlock(block)
    ensures d.Drop? <==> (IsSecBlock(block)
      && ((ignorePmFromFile && HasPrefix(Strip(block), "SecRule") && Contains(block, "@pmFromFile"))
          || ExtractRuleId(block) in ignoreRuleIds))
  {
    if IsSecBlock(block) then
      if ignorePmFromFile && HasPrefix(Strip(block), "SecRule") && Contains(block, "@pmFromFile") then
        Drop(Removed(ExtractRuleId(block), "@pmFromFile not supported"))
      else if ExtractRuleId(block) in ignoreRuleIds then Drop(Removed(ExtractRuleId(block), "Rule ID in ignore list"))
      else Keep
    else Keep
  }

  /** The kept blocks and the removed rules, in block order. */
  function Kept(blocks: seq<string>, ignore: set<string>, pm: bool): (kept: seq<string>)
  {
    if |blocks| == 0 then []
    else
      var last := blocks[|blocks| - 1];
      Kept(blocks[..|blocks| - 1], ignore, pm) + (if Dispose(last, ignore, pm).Keep? then [last] else [])
  }

  function RemovedRules(blocks: seq<string>, ignore: set<string>, pm: bool): (removed: seq<Removed>)
  {
    if |blocks| == 0 then []
    else
      var d := Dispose(blocks[|blocks| - 1], ignore, pm);
      RemovedRules(blocks[..|blocks| - 1], ignore, pm) + (if d.Drop? then [d.removed] else [])
  }

  /** Every block is kept or removed, never both; non-Sec blocks are kept. */
  lemma {:induction false} KeptOrRemoved(blocks: seq<string>, ignore: set<string>, pm: bool)
    ensures |Kept(blocks, ignore, pm)| + |RemovedRules(blocks, ignore, pm)| == |blocks|
    ensures forall b :: b in blocks && !IsSecBlock(b) ==> b in Kept(blocks, ignore, pm)
    ensures forall b :: b in Kept(blocks, ignore, pm) ==> b in blocks && Dispose(b, ignore, pm).Keep?
  {
    if |blocks| > 0 {
      var init := blocks[..|blocks| - 1];
      KeptOrRemoved(init, ignore, pm);
      assert blocks == init + [blocks[|blocks| - 1]];
    }
  }

  /** Kept blocks keep their order. */
  lemma {:induction false} KeptInOrder(blocks: seq<string>, ignore: set<string>, pm: bool)
    ensures IsSubsequence(Kept(blocks, ignore, pm), blocks)
  {
    if |blocks| > 0 {
      var init, b := blocks[..|blocks| - 1], blocks[|blocks| - 1];
      KeptInOrder(init, ignore, pm);
      var k := Kept(init, ignore, pm);
      assert blocks == init + [b];
      if Dispose(b, ignore, pm).Keep? {
        assert Kept(blocks, ignore, pm) == k + [b];
        SubsequenceSnoc(k, init, b);
      } else {
        assert Kept(blocks, ignore, pm) == k;
        SubsequenceExtend(k, init, b);
      }
    }
  }

  lemma {:induction false} SubsequenceSnoc(xs: seq<string>, ys: seq<string>, y: string)
    requires IsSubsequence(xs, ys)
    ensures IsSubsequence(xs + [y], ys + [y])
    decreases |ys|
  {
    if xs == [] {
      if ys != [] {
        assert (ys + [y])[1..] == ys[1..] + [y];
        assert IsSubsequence([], ys[1..]);
        SubsequenceSnoc([], ys[1..], y);
        if y != (ys + [y])[0] {
        } else {
          assert IsSubsequence([y][1..], (ys + [y])[1..]);
        }
      }
    } else {
      assert (xs + [y])[0] == xs[0] && (xs + [y])[1..] == xs[1..] + [y];
      assert (ys + [y])[0] == ys[0] && (ys + [y])[1..] == ys[1..] + [y];
      if xs[0] == ys[0] {
        SubsequenceSnoc(xs[1..], ys[1..], y);
      } else {
        SubsequenceSnoc(xs, ys[1..], y);
      }
    }
  }

  lemma {:induction false} SubsequenceExtend(xs: seq<string>, ys: seq<string>, y: string)
    requires IsSubsequence(xs, ys)
    ensures IsSubsequence(xs, ys + [y])
    decreases |ys|
  {
    if xs != [] {
      assert (ys + [y])[0] == ys[0] && (ys + [y])[1..] == ys[1..] + [y];
      if xs[0] == ys[0] {
        SubsequenceExtend(xs[1..], ys[1..], y);
      } else {
        SubsequenceExtend(xs, ys[1..], y);
      }
    }
  }

  datatype Processed = Processed(content: string, removed: seq<Removed>)

  /** process_file_content; content is None when the file could not be read. */
  function ProcessFileContent(content: Option<string>, ignore: set<string>, pm: bool): Processed
  {
    match content
    case None => Processed("", [])
    case Some(c) =>
      if !Contains(c, "SecRule") && !Contains(c, "SecAction") then Processed("", [])
      else
        var blocks := SplitIntoRules(c);
        Processed(Join(Kept(blocks, ignore, pm), "\n"), RemovedRules(blocks, ignore, pm))
  }

  /** The filtering loop of process_file_content. */
  method FilterBlocks(blocks: seq<string>, ignore: set<string>, pm: bool) returns (filtered: seq<string>, removed: seq<Removed>)
    ensures filtered == Kept(blocks, ignore, pm) && removed == RemovedRules(blocks, ignore, pm)
  {
    filtered, removed := [], [];
    var i := 0;
    while i < |blocks|
      invariant 0 <= i <= |blocks|
      invariant filtered == Kept(blocks[..i], ignore, pm) && removed == RemovedRules(blocks[..i], ignore, pm)
    {
      var block := blocks[i];
      assert blocks[..i + 1][..i] == blocks[..i];
      var strippedBlock := Strip(block);
      if strippedBlock != "" && !HasPrefix(strippedBlock, "#") && HasPrefix(strippedBlock, "Sec") {
        if pm && HasPrefix(strippedBlock, "SecRule") && Contains(block, "@pmFromFile") {
          var ruleId := ExtractRuleId(block);
          removed := removed + [Removed(ruleId, "@pmFromFile not supported")];
        } else {
          var ruleId := ExtractRuleId(block);
          if ruleId in ignore {
            removed := removed + [Removed(ruleId, "Rule ID in ignore list")];
          } else {
            filtered := filtered + [block];
          }
        }
      } else {
        filtered := filtered + [block];
      }
      i := i + 1;
    }
    assert blocks[..i] == blocks;
  }

  /** Content with neither SecRule nor SecAction, or an unreadable file, gives
      nothing and no removals; otherwise nothing that is not a Sec* block is
      lost, and with no ignore list and no pmFromFile filter the content comes
      back unchanged. */
  lemma ProcessFileContentFacts(content: Option<string>, ignore: set<string>, pm: bool)
    ensures content.None? ==> ProcessFileContent(content, ignore, pm) == Processed("", [])
    ensures content.Some? && !Contains(content.value, "SecRule") && !Contains(content.value, "SecAction") ==>
      ProcessFileContent(content, ignore, pm) == Processed("", [])
    ensures content.Some? && (Contains(content.value, "SecRule") || Contains(content.value, "SecAction")) && !pm
      && (forall b :: b in SplitIntoRules(content.value) ==> ExtractRuleId(b) !in ignore)
      ==> ProcessFileContent(content, ignore, pm) == Processed(content.value, [])
  {
    if content.Some? && (Contains(content.value, "SecRule") || Contains(content.value, "SecAction")) && !pm
      && (forall b :: b in SplitIntoRules(content.value) ==> ExtractRuleId(b) !in ignore) {
      var blocks := SplitIntoRules(content.value);
      NothingDropped(blocks, ignore);
      SplitIntoRulesRoundTrip(content.value);
    }
  }

  lemma NothingDropped(blocks: seq<string>, ignore: set<string>)
    requires forall b :: b in blocks ==> ExtractRuleId(b) !in ignore
    ensures Kept(blocks, ignore, false) == blocks && RemovedRules(blocks, ignore, false) == []
  {
    NothingDroppedKept(blocks, ignore);
    NothingDroppedRemoved(blocks, ignore);
  }

  lemma {:induction false} NothingDroppedKept(blocks: seq<string>, ignore: set<string>)
    requires forall b :: b in blocks ==> ExtractRuleId(b) !in ignore
    ensures Kept(blocks, ignore, false) == blocks
  {
    if |blocks| > 0 {
      var init := blocks[..|blocks| - 1];
      var last := blocks[|blocks| - 1];
      assert forall b :: b in init ==> b in blocks;
      NothingDroppedKept(init, ignore);
      assert Dispose(last, ignore, false).Keep? by {
        assert last in blocks;
      }
      assert blocks == init + [last];
    }
  }

  lemma {:induction false} NothingDroppedRemoved(blocks: seq<string>, ignore: set<string>)
    requires forall b :: b in blocks ==> ExtractRuleId(b) !in ignore
    ensures RemovedRules(blocks, ignore, false) == []
  {
    if |blocks| > 0 {
      var init := blocks[..|blocks| - 1];
      var last := blocks[|blocks| - 1];
      assert forall b :: b in init ==> b in blocks;
      NothingDroppedRemoved(init, ignore);
      assert Dispose(last, ignore, false).Keep? by {
        assert last in blocks;
      }
    }
  }

  // ---------------------------------------------------------------------------
  // generate_configmap_name
  // ---------------------------------------------------------------------------

  /** The index of the last '.' in s, or -1. */
  function LastDot(s: string): (i: int)
    ensures -1 <= i < |s|
    ensures i >= 0 ==> s[i] == '.'
    ensures forall k :: i < k < |s| ==> s[k] != '.'
  {
    if |s| == 0 then -1 else if s[|s| - 1] == '.' then |s| - 1 else LastDot(s[..|s| - 1])
  }

  /** Path.stem: the name without its last suffix; a leading or trailing dot is not a suffix. */
  function Stem(name: string): string
  {
    var i := LastDot(name);
    if 0 < i < |name| - 1 then name[..i] else name
  }

  function ReplaceUnderscores(s: string): (r: string)
    ensures |r| == |s|
    ensures forall i :: 0 <= i < |s| ==> r[i] == if s[i] == '_' then '-' else s[i]
  {
    seq(|s|, i requires 0 <= i < |s| => if s[i] == '_' then '-' else s[i])
  }

  /** re.sub(r'[^a-z0-9.-]', '', s) */
  function KeepNameChars(s: string): (r: string)
    ensures forall i :: 0 <= i < |r| ==> IsNameChar(r[i])
    ensures (forall i :: 0 <= i < |s| ==> IsNameChar(s[i])) ==> r == s
  {
    if |s| == 0 then "" else (if IsNameChar(s[0]) then [s[0]] else "") + KeepNameChars(s[1..])
  }

  /** re.sub(r'^[^a-z0-9]+', '', s) */
  function TrimLeadingNonAlnum(s: string): (r: string)
    ensures |r| <= |s| && r == s[|s| - |r|..]
    ensures r == "" || IsLowerAlnum(r[0])
    ensures |s| > 0 && IsLowerAlnum(s[0]) ==> r == s
  {
    if |s| == 0 || IsLowerAlnum(s[0]) then s else TrimLeadingNonAlnum(s[1..])
  }

  /** re.sub(r'[^a-z0-9]+$', '', s) */
  function TrimTrailingNonAlnum(s: string): (r: string)
    ensures |r| <= |s| && r == s[..|r|]
    ensures r == "" || IsLowerAlnum(r[|r| - 1])
    ensures |s| > 0 && IsLowerAlnum(s[|s| - 1]) ==> r == s
  {
    if |s| == 0 || IsLowerAlnum(s[|s| - 1]) then s else TrimTrailingNonAlnum(s[..|s| - 1])
  }

  /** A name generate_configmap_name can return: 1 to 253 characters of
      [a-z0-9.-], starting and ending alphanumeric. */
  predicate IsConfigMapName(n: string)
  {
    1 <= |n| <= 253 && (forall i :: 0 <= i < |n| ==> IsNameChar(n[i])) && IsLowerAlnum(n[0]) && IsLowerAlnum(n[|n| - 1])
  }

  /** The name before the length and emptiness checks. */
  function SanitizedName(fileName: string): string
  {
    TrimTrailingNonAlnum(TrimLeadingNonAlnum(KeepNameChars(ReplaceUnderscores(Lower(Stem(fileName))))))
  }

  /** generate_configmap_name: Err is the ValueError's message. */
  function GenerateConfigMapName(fileName: string): Result<string>
  {
    var name := SanitizedName(fileName);
    if name == "" then Err("Cannot generate valid ConfigMap name from file: " + fileName)
    else if |name| > 253 then Err("Generated ConfigMap name exceeds 253 characters: " + name)
    else Ok(name)
  }

  /** Middle parts of a string of name characters are name characters. */
  lemma AllNameChars(s: string, i: int, j: int)
    requires 0 <= i <= j <= |s| && forall k :: 0 <= k < |s| ==> IsNameChar(s[k])
    ensures forall k :: 0 <= k < j - i ==> IsNameChar(s[i..j][k])
  {
    assert forall k :: 0 <= k < j - i ==> s[i..j][k] == s[i + k];
  }

  /** Every name returned is a valid ConfigMap name; an error is raised exactly
      when sanitising leaves nothing or more than 253 characters. */
  lemma GenerateConfigMapNameValid(fileName: string)
    ensures var r := GenerateConfigMapName(fileName);
      (r.Ok? ==> IsConfigMapName(r.value))
      && (r.Err? <==> SanitizedName(fileName) == "" || |SanitizedName(fileName)| > 253)
  {
    var kept := KeepNameChars(ReplaceUnderscores(Lower(Stem(fileName))));
    var lead := TrimLeadingNonAlnum(kept);
    AllNameChars(kept, |kept| - |lead|, |kept|);
    assert forall k :: 0 <= k < |lead| ==> IsNameChar(lead[k]);
    var name := TrimTrailingNonAlnum(lead);
    AllNameChars(lead, 0, |name|);
    if name != "" {
      assert name == lead[..|name|];
      assert IsLowerAlnum(name[0]) by {
        assert name[0] == lead[0];
      }
    }
  }

  /** Naming a file after a valid ConfigMap name, with the .conf suffix, gives that name back. */
  lemma GenerateConfigMapNameRoundTrip(n: string)
    requires IsConfigMapName(n)
    ensures GenerateConfigMapName(n + ".conf") == Ok(n)
  {
    var f := n + ".conf";
    assert LastDot(f) == |n| by {
      assert f[|n|] == '.';
      assert forall k :: |n| < k < |f| ==> f[k] != '.' by {
        assert forall k :: |n| < k < |f| ==> f[k] == ".conf"[k - |n|];
      }
    }
    assert Stem(f) == n;
    assert Lower(n) == n;
    assert ReplaceUnderscores(n) == n;
  }

  // ---------------------------------------------------------------------------
  // generate_configmap and generate_ruleset
  // ---------------------------------------------------------------------------

  /** A non-blank line indented by four spaces, a blank line emptied. */
  function IndentLine(line: string): string
  {
    if Strip(line) != "" then "    " + line else ""
  }

  function IndentLines(lines: seq<string>): (r: seq<string>)
    ensures |r| == |lines|
    ensures forall i :: 0 <= i < |lines| ==> r[i] == IndentLine(lines[i])
  {
    seq(|lines|, i requires 0 <= i < |lines| => IndentLine(lines[i]))
  }

  function ConfigMapYaml(name: string, indentedRules: string): string
  {
    "apiVersion: v1\nkind: ConfigMap\nmetadata:\n  name: " + name + "\ndata:\n  rules: |\n" + indentedRules + "\n"
  }

  /** A generated ConfigMap: its name, its YAML and the skip reason ("" unless skipped). */
  datatype Generated = Generated(name: string, yaml: string, skipReason: string)

  const NoDirectives: string := "No SecRule or SecAction directives found"

  /** generate_configmap: Err when the name cannot be generated, which happens
      before the file is read. */
  function GenerateConfigMap(fileName: string, content: Option<string>, ignore: set<string>, pm: bool): Result<Generated>
  {
    match GenerateConfigMapName(fileName)
    case Err(e) => Err(e)
    case Ok(name) =>
      var processed := ProcessFileContent(content, ignore, pm).content;
      if Strip(processed) == "" then Ok(Generated("", "", NoDirectives))
      else Ok(Generated(name, ConfigMapYaml(name, Join(IndentLines(SplitLines(processed)), "\n")), ""))
  }

  lemma ConfigMapYamlHead(name: string, rules: string)
    ensures HasPrefix(ConfigMapYaml(name, rules), "apiVersion: v1\nkind: ConfigMap\nmetadata:\n  name: " + name + "\n")
  {
    var head := "apiVersion: v1\nkind: ConfigMap\nmetadata:\n  name: " + name + "\n";
    assert ConfigMapYaml(name, rules) == head + ("data:\n  rules: |\n" + rules + "\n");
  }

  /** A blank result is skipped with the reason and no YAML; otherwise the YAML
      names a valid ConfigMap and the reason is empty. */
  lemma GenerateConfigMapFacts(fileName: string, content: Option<string>, ignore: set<string>, pm: bool)
    ensures var r := GenerateConfigMap(fileName, content, ignore, pm);
      (r.Err? <==> GenerateConfigMapName(fileName).Err?)
      && (r.Ok? ==>
        var processed := ProcessFileContent(content, ignore, pm).content;
        (Strip(processed) == "" <==> r.value.yaml == "")
        && (r.value.yaml == "" ==> r.value == Generated("", "", NoDirectives))
        && (r.value.yaml != "" ==>
          (r.value.skipReason == "" && IsConfigMapName(r.value.name)
           && HasPrefix(r.value.yaml, "apiVersion: v1\nkind: ConfigMap\nmetadata:\n  name: " + r.value.name + "\n"))))
  {
    GenerateConfigMapNameValid(fileName);
    match GenerateConfigMapName(fileName)
    case Err(_) =>
    case Ok(name) =>
      var processed := ProcessFileContent(content, ignore, pm).content;
      if Strip(processed) != "" {
        ConfigMapYamlHead(name, Join(IndentLines(SplitLines(processed)), "\n"));
      }
  }

  /** Each indented line is four spaces then the line, or empty for a blank one;
      no indented line is blank but for being empty. */
  lemma IndentLinesFacts(lines: seq<string>)
    ensures forall i :: 0 <= i < |lines| ==>
      (Strip(lines[i]) == "" ==> IndentLines(lines)[i] == "")
      && (Strip(lines[i]) != "" ==> IndentLines(lines)[i] == "    " + lines[i] && HasPrefix(IndentLines(lines)[i], "    "))
  {
    forall i | 0 <= i < |lines| && Strip(lines[i]) != ""
      ensures HasPrefix(IndentLines(lines)[i], "    ")
    {
      assert ("    " + lines[i])[..4] == "    ";
    }
  }

  const BaseRulesEntry: string := "    - name: base-rules"

  function RuleSetEntry(name: string): string
  {
    "    - name: " + name
  }

  function RuleSetYaml(rulesSection: string): string
  {
    "apiVersion: waf.k8s.coraza.io/v1alpha1\nkind: RuleSet\nmetadata:\n  name: default-ruleset\nspec:\n  rules:\n" + rulesSection + "\n"
  }

  /** The entries loop of generate_ruleset. */
  method RuleSetEntries(configMapNames: seq<string>, includeBaseRules: bool) returns (entries: seq<string>)
    ensures |entries| == |configMapNames| + (if includeBaseRules then 1 else 0)
    ensures includeBaseRules ==> entries[0] == BaseRulesEntry
    ensures var offset := if includeBaseRules then 1 else 0;
      forall i :: 0 <= i < |configMapNames| ==> entries[i + offset] == RuleSetEntry(configMapNames[i])
  {
    entries := [];
    if includeBaseRules {
      entries := entries + [BaseRulesEntry];
    }
    ghost var offset := |entries|;
    var i := 0;
    while i < |configMapNames|
      invariant 0 <= i <= |configMapNames|
      invariant |entries| == offset + i
      invariant includeBaseRules ==> entries[0] == BaseRulesEntry
      invariant forall k :: 0 <= k < i ==> entries[k + offset] == RuleSetEntry(configMapNames[k])
    {
      entries := entries + [RuleSetEntry(configMapNames[i])];
      i := i + 1;
    }
  }

  /** generate_ruleset. */
  method GenerateRuleSet(configMapNames: seq<string>, includeBaseRules: bool) returns (ruleset: string, ghost entries: seq<string>)
    ensures ruleset == RuleSetYaml(Join(entries, "\n"))
    ensures |entries| == |configMapNames| + (if includeBaseRules then 1 else 0)
    ensures includeBaseRules ==> entries[0] == BaseRulesEntry
    ensures var offset := if includeBaseRules then 1 else 0;
      forall i :: 0 <= i < |configMapNames| ==> entries[i + offset] == RuleSetEntry(configMapNames[i])
  {
    var es := RuleSetEntries(configMapNames, includeBaseRules);
    entries := es;
    ruleset := RuleSetYaml(Join(es, "\n"));
  }

  // ---------------------------------------------------------------------------
  // The ignore list of main
  // ---------------------------------------------------------------------------

  /** {rid.strip() for rid in s.split(',') if rid.strip()}, or the empty set when s is empty. */
  function IgnoreRuleIds(s: string): set<string>
  {
    if s == "" then {} else set part | part in Split(s, ',') && Strip(part) != "" :: Strip(part)
  }

  /** Stripping a part without commas leaves no comma. */
  lemma StripKeepsNoSeparator(part: string, d: char)
    requires NoSeparator(part, d)
    ensures NoSeparator(Strip(part), d)
  {
    var a, b := StripIsSlice(part);
    assert forall k :: 0 <= k < b - a ==> part[a..b][k] == part[a + k];
  }

  /** The ignore set holds the stripped, non-empty comma-separated entries of s
      and nothing else. */
  lemma IgnoreRuleIdsMembers(s: string, id: string)
    ensures id in IgnoreRuleIds(s) <==> (id != "" && exists part :: part in Split(s, ',') && Strip(part) == id)
    ensures id in IgnoreRuleIds(s) ==> NoSeparator(id, ',')
  {
    if s == "" {
      assert Split(s, ',') == [""];
      assert Strip("") == "";
    }
    if id in IgnoreRuleIds(s) {
      var part :| part in Split(s, ',') && Strip(part) != "" && Strip(part) == id;
      SplitPartsHaveNoSeparator(s, ',');
      StripKeepsNoSeparator(part, ',');
    }
  }
}
