// internal/rulesets/validator.go: checking SecLang rules for syntax errors and
// for operators the WAF does not support. The ANTLR lexer and parser are not
// modelled: their output is given as the syntax errors they report, in report
// order, and the listener callbacks the parse-tree walk makes, in walk order.
module SecLangValidator {
  import opened Wrappers
  import opened Strings
  import opened Seqs

  // ---------------------------------------------------------------------------
  // Supported operators
  // ---------------------------------------------------------------------------

  /** knownOperators: every operator the WAF implements, all marked supported. */
  const KnownOperators: map<string, bool> := map[
    "beginsWith" := true,
    "contains" := true,
    "detectSQLi" := true,
    "detectXSS" := true,
    "endsWith" := true,
    "eq" := true,
    "ge" := true,
    "gt" := true,
    "inspectFile" := true,
    "ipMatch" := true,
    "le" := true,
    "lt" := true,
    "noMatch" := true,
    "pm" := true,
    "rbl" := true,
    "restpath" := true,
    "rx" := true,
    "streq" := true,
    "unconditionalMatch" := true,
    "validateByteRange" := true,
    "validateNid" := true,
    "validateSchema" := true,
    "validateURLEncoding" := true,
    "validateUtf8Encoding" := true,
    "within" := true
  ]

  /** isValid: the needle is present and marked supported. */
  predicate IsValid(hay: map<string, bool>, needle: string)
  {
    needle in hay && hay[needle]
  }

  predicate IsValidOperator(operator: string)
  {
    IsValid(KnownOperators, operator)
  }

  /** Variables, collections and setvar collections are all accepted. */
  predicate IsValidName(name: string)
  {
    true
  }

  /** An operator is accepted exactly when it is one of the 25 known ones;
      pmFromFile (which reads a file) is not among them. */
  lemma IsValidOperatorIff(operator: string)
    ensures IsValidOperator(operator) <==> operator in KnownOperators
    ensures !IsValidOperator("pmFromFile") && IsValidOperator("rx") && IsValidOperator("contains")
  {
  }


  // ---------------------------------------------------------------------------
  // What the parser hands the listeners
  // ---------------------------------------------------------------------------

  datatype Position = Position(line: int, column: int)

  /** One listener callback of the walk: the matched text and where its first token starts. */
  datatype WalkEvent =
    | EnterVariableEnum(text: string, pos: Position)
    | EnterCollectionEnum(text: string, pos: Position)
    | EnterOperatorName(text: string, pos: Position)
    | EnterColName(text: string, pos: Position)

  /** One syntax error the parser reports; offendingSymbol is the token as %v
      renders it, or None for a nil symbol. */
  datatype SyntaxReport = SyntaxReport(offendingSymbol: Option<string>, line: int, column: int, msg: string)

  datatype ParseOutput = ParseOutput(reports: seq<SyntaxReport>, walk: seq<WalkEvent>)

  // ---------------------------------------------------------------------------
  // customErrorListener
  // ---------------------------------------------------------------------------

  function PositionPrefix(line: int, column: int): string
  {
    "[" + IntToString(line) + ":" + IntToString(column) + "] "
  }

  /** The message SyntaxError records for one report. */
  function SyntaxMessage(r: SyntaxReport): (m: string)
    ensures HasPrefix(m, PositionPrefix(r.line, r.column))
    ensures r.offendingSymbol.None? ==> m == PositionPrefix(r.line, r.column) + "Recognition error: " + r.msg
    ensures r.offendingSymbol.Some? ==>
      m == PositionPrefix(r.line, r.column) + "Syntax error '" + r.offendingSymbol.value + "': " + r.msg
  {
    var p := PositionPrefix(r.line, r.column);
    match r.offendingSymbol
    case None => p + "Recognition error: " + r.msg
    case Some(sym) => p + "Syntax error '" + sym + "': " + r.msg
  }

  /** The messages of all reports, in report order. */
  function SyntaxMessages(reports: seq<SyntaxReport>): (ms: seq<string>)
    ensures |ms| == |reports|
    ensures forall i :: 0 <= i < |reports| ==> ms[i] == SyntaxMessage(reports[i])
  {
    seq(|reports|, i requires 0 <= i < |reports| => SyntaxMessage(reports[i]))
  }

  class CustomErrorListener {
    var errors: seq<string>

    constructor ()
      ensures errors == []
    {
      errors := [];
    }

    /** SyntaxError: appends the report's message. */
    method SyntaxError(offendingSymbol: Option<string>, line: int, column: int, msg: string)
      modifies this
      ensures errors == old(errors) + [SyntaxMessage(SyntaxReport(offendingSymbol, line, column, msg))]
    {
      var err: string;
      if offendingSymbol.None? {
        err := PositionPrefix(line, column) + "Recognition error: " + msg;
      } else {
        err := PositionPrefix(line, column) + "Syntax error '" + offendingSymbol.value + "': " + msg;
      }
      errors := errors + [err];
    }
  }

  // ---------------------------------------------------------------------------
  // Unsupported occurrences and their messages
  // ---------------------------------------------------------------------------

  datatype Occurrence = Occurrence(name: string, pos: Position)

  /** The operator occurrences of a walk that are not supported, in walk order. */
  function Unsupported(walk: seq<WalkEvent>): (occ: seq<Occurrence>)
    ensures |occ| <= |walk|
  {
    if |walk| == 0 then []
    else
      var last := walk[|walk| - 1];
      Unsupported(walk[..|walk| - 1])
        + (if last.EnterOperatorName? && !IsValidOperator(last.text) then [Occurrence(last.text, last.pos)] else [])
  }

  /** The message violations.errors() builds for one unsupported operator. */
  function UnsupportedMessage(o: Occurrence): string
  {
    PositionPrefix(o.pos.line, o.pos.column) + "Unsupported operator: @" + o.name
  }

  function Messages(occ: seq<Occurrence>): (ms: seq<string>)
    ensures |ms| == |occ|
    ensures forall i :: 0 <= i < |occ| ==> ms[i] == UnsupportedMessage(occ[i])
  {
    seq(|occ|, i requires 0 <= i < |occ| => UnsupportedMessage(occ[i]))
  }

  /** An occurrence is unsupported exactly when the walk entered that operator
      name at that position and the name is not a known operator: variables,
      collections and setvar collections never yield one. */
  lemma {:induction false} UnsupportedMembers(walk: seq<WalkEvent>, o: Occurrence)
    ensures o in Unsupported(walk) <==>
      !IsValidOperator(o.name) && EnterOperatorName(o.name, o.pos) in walk
  {
    if |walk| > 0 {
      var init := walk[..|walk| - 1];
      UnsupportedMembers(init, o);
      assert walk == init + [walk[|walk| - 1]];
    }
  }

  /** A rule whose only operator is @pmFromFile at line 1, column 22 yields one error. */
  lemma PmFromFileRejected()
    ensures Messages(Unsupported([EnterVariableEnum("REQUEST_URI", Position(1, 8)), EnterOperatorName("pmFromFile", Position(1, 22))]))
      == ["[1:22] Unsupported operator: @pmFromFile"]
  {
    var walk := [EnterVariableEnum("REQUEST_URI", Position(1, 8)), EnterOperatorName("pmFromFile", Position(1, 22))];
    assert Unsupported(walk) == [Occurrence("pmFromFile", Position(1, 22))] by {
      IsValidOperatorIff("pmFromFile");
      assert walk[..1][..0] == [];
      assert Unsupported(walk[..1]) == [];
    }
    PmFromFileMessage();
  }

  lemma PmFromFileMessage()
    ensures UnsupportedMessage(Occurrence("pmFromFile", Position(1, 22))) == "[1:22] Unsupported operator: @pmFromFile"
  {
    LineColumnPrefix();
  }

  lemma LineColumnPrefix()
    ensures PositionPrefix(1, 22) == "[1:22] "
  {
    TwentyTwo();
    assert IntToString(1) == "1";
  }

  lemma TwentyTwo()
    ensures IntToString(22) == "22"
  {
    assert NatToString(22) == NatToString(2) + [DigitChar(2)];
  }

  /** The operators map: an operator name to its positions, in walk order. */
  function Grouped(occ: seq<Occurrence>): (m: map<string, seq<Position>>)
  {
    if |occ| == 0 then map[]
    else
      var m := Grouped(occ[..|occ| - 1]);
      var o := occ[|occ| - 1];
      m[o.name := (if o.name in m then m[o.name] else []) + [o.pos]]
  }

  /** The positions at which an operator name occurs, in order. */
  function PositionsOf(occ: seq<Occurrence>, name: string): seq<Position>
  {
    if |occ| == 0 then []
    else
      PositionsOf(occ[..|occ| - 1], name)
        + (if occ[|occ| - 1].name == name then [occ[|occ| - 1].pos] else [])
  }

  /** The occurrences of other names. */
  function Without(occ: seq<Occurrence>, name: string): seq<Occurrence>
  {
    if |occ| == 0 then []
    else
      Without(occ[..|occ| - 1], name)
        + (if occ[|occ| - 1].name != name then [occ[|occ| - 1]] else [])
  }

  /** The map holds the names that occur, each with its positions in walk order. */
  lemma {:induction false} GroupedIsPositions(occ: seq<Occurrence>, name: string)
    ensures name in Grouped(occ) <==> PositionsOf(occ, name) != []
    ensures name in Grouped(occ) ==> Grouped(occ)[name] == PositionsOf(occ, name)
  {
    if |occ| > 0 {
      GroupedIsPositions(occ[..|occ| - 1], name);
    }
  }

  /** The messages of one name's positions. */
  function NameMessages(name: string, ps: seq<Position>): (ms: seq<string>)
    ensures |ms| == |ps|
    ensures forall i :: 0 <= i < |ps| ==> ms[i] == UnsupportedMessage(Occurrence(name, ps[i]))
  {
    seq(|ps|, i requires 0 <= i < |ps| => UnsupportedMessage(Occurrence(name, ps[i])))
  }

  /** The messages errors() builds when it visits the names in this order. */
  function Flatten(ops: map<string, seq<Position>>, order: seq<string>): seq<string>
    requires forall k :: k in order ==> k in ops
  {
    if |order| == 0 then [] else NameMessages(order[0], ops[order[0]]) + Flatten(ops, order[1..])
  }

  lemma {:induction false} FlattenAppend(ops: map<string, seq<Position>>, order: seq<string>, k: string)
    requires forall j :: j in order ==> j in ops
    requires k in ops
    ensures Flatten(ops, order + [k]) == Flatten(ops, order) + NameMessages(k, ops[k])
  {
    if |order| == 0 {
      assert order + [k] == [k];
      assert Flatten(ops, [k][1..]) == [];
    } else {
      assert (order + [k])[1..] == order[1..] + [k];
      FlattenAppend(ops, order[1..], k);
    }
  }

  lemma {:induction false} FlattenEmpty(ops: map<string, seq<Position>>, order: seq<string>)
    requires forall k :: k in order ==> k in ops
    ensures Flatten(ops, order) == [] <==> forall k :: k in order ==> ops[k] == []
  {
    if |order| > 0 {
      FlattenEmpty(ops, order[1..]);
      assert forall k :: k in order ==> k == order[0] || k in order[1..];
    }
  }

  lemma MessagesSnoc(occ: seq<Occurrence>, o: Occurrence)
    ensures Messages(occ + [o]) == Messages(occ) + [UnsupportedMessage(o)]
  {
  }

  lemma NameMessagesSnoc(name: string, ps: seq<Position>, p: Position)
    ensures NameMessages(name, ps + [p]) == NameMessages(name, ps) + [UnsupportedMessage(Occurrence(name, p))]
  {
  }

  /** One more position of a name, after the messages already built. */
  lemma NameMessagesStep(before: seq<string>, name: string, ps: seq<Position>, j: int)
    requires 0 <= j < |ps|
    ensures before + NameMessages(name, ps[..j + 1])
            == before + NameMessages(name, ps[..j]) + [UnsupportedMessage(Occurrence(name, ps[j]))]
  {
    assert ps[..j + 1] == ps[..j] + [ps[j]];
    NameMessagesSnoc(name, ps[..j], ps[j]);
  }

  /** Splitting off one name's messages from all the messages, as bags. */
  lemma {:induction false} SplitName(occ: seq<Occurrence>, name: string)
    ensures multiset(Messages(occ))
      == multiset(NameMessages(name, PositionsOf(occ, name))) + multiset(Messages(Without(occ, name)))
  {
    if |occ| > 0 {
      var init, o := occ[..|occ| - 1], occ[|occ| - 1];
      assert occ == init + [o];
      SplitName(init, name);
      var ps, w := PositionsOf(init, name), Without(init, name);
      MessagesSnoc(init, o);
      if o.name == name {
        assert PositionsOf(occ, name) == ps + [o.pos];
        assert Without(occ, name) == w;
        NameMessagesSnoc(name, ps, o.pos);
        assert Occurrence(name, o.pos) == o;
      } else {
        assert PositionsOf(occ, name) == ps;
        assert Without(occ, name) == w + [o];
        MessagesSnoc(w, o);
      }
    }
  }

  lemma PositionsOfSnoc(occ: seq<Occurrence>, o: Occurrence, name: string)
    ensures PositionsOf(occ + [o], name) == PositionsOf(occ, name) + (if o.name == name then [o.pos] else [])
  {
    assert (occ + [o])[..|occ|] == occ;
  }

  lemma {:induction false} PositionsOfWithout(occ: seq<Occurrence>, name: string, other: string)
    requires other != name
    ensures PositionsOf(Without(occ, name), other) == PositionsOf(occ, other)
  {
    if |occ| > 0 {
      var init, o := occ[..|occ| - 1], occ[|occ| - 1];
      PositionsOfWithout(init, name, other);
      assert occ == init + [o];
      PositionsOfSnoc(init, o, other);
      if o.name != name {
        assert Without(occ, name) == Without(init, name) + [o];
        PositionsOfSnoc(Without(init, name), o, other);
      } else {
        assert Without(occ, name) == Without(init, name);
      }
    }
  }

  lemma {:induction false} WithoutNames(occ: seq<Occurrence>, name: string, o: Occurrence)
    ensures o in Without(occ, name) <==> o in occ && o.name != name
  {
    if |occ| > 0 {
      WithoutNames(occ[..|occ| - 1], name, o);
      assert occ == occ[..|occ| - 1] + [occ[|occ| - 1]];
    }
  }

  lemma {:induction false} NoPositionsNotIn(occ: seq<Occurrence>, name: string)
    requires forall o :: o in occ ==> o.name != name
    ensures PositionsOf(occ, name) == []
  {
    if |occ| > 0 {
      NoPositionsNotIn(occ[..|occ| - 1], name);
    }
  }

  /** Visiting every name that occurs, once each and in any order, yields the
      messages of all occurrences: the same bag. */
  lemma {:induction false} FlattenIsAllMessages(occ: seq<Occurrence>, order: seq<string>)
    requires Distinct(order)
    requires forall o :: o in occ ==> o.name in order
    requires forall k :: k in order ==> k in Grouped(occ)
    ensures multiset(Flatten(Grouped(occ), order)) == multiset(Messages(occ))
    decreases |order|
  {
    if |order| > 0 {
      var k, rest := order[0], order[1..];
      var w := Without(occ, k);
      SplitName(occ, k);
      GroupedIsPositions(occ, k);
      assert forall j :: j in rest ==> j != k by {
        forall j | j in rest ensures j != k {
          var i :| 0 <= i < |rest| && rest[i] == j;
          assert order[i + 1] == j;
        }
      }
      forall o | o in w
        ensures o.name in rest
      {
        WithoutNames(occ, k, o);
        assert o.name in order;
      }
      forall j | j in rest
        ensures j in Grouped(w) && Grouped(w)[j] == Grouped(occ)[j]
      {
        GroupedIsPositions(occ, j);
        GroupedIsPositions(w, j);
        PositionsOfWithout(occ, k, j);
      }
      assert Distinct(rest);
      FlattenIsAllMessages(w, rest);
      FlattenSameEntries(Grouped(w), Grouped(occ), rest);
    }
  }

  lemma {:induction false} FlattenSameEntries(a: map<string, seq<Position>>, b: map<string, seq<Position>>, order: seq<string>)
    requires forall k :: k in order ==> k in a && k in b && a[k] == b[k]
    ensures Flatten(a, order) == Flatten(b, order)
  {
    if |order| > 0 {
      FlattenSameEntries(a, b, order[1..]);
    }
  }

  /** Every name in the map has at least one position. */
  lemma GroupedNonEmpty(occ: seq<Occurrence>, name: string)
    requires name in Grouped(occ)
    ensures Grouped(occ)[name] != []
  {
    GroupedIsPositions(occ, name);
  }

  /** Each name in the map occurs, and each name that occurs is in the map. */
  lemma {:induction false} GroupedKeysOccur(occ: seq<Occurrence>, name: string)
    ensures name in Grouped(occ) <==> exists o :: o in occ && o.name == name
  {
    GroupedIsPositions(occ, name);
    if |occ| > 0 {
      var init := occ[..|occ| - 1];
      GroupedKeysOccur(init, name);
      GroupedIsPositions(init, name);
      assert occ == init + [occ[|occ| - 1]];
    }
  }

  /** One walk event extends the operators map as Enter does. */
  lemma GroupedSnoc(occ: seq<Occurrence>, e: WalkEvent)
    ensures var extra := if e.EnterOperatorName? && !IsValidOperator(e.text) then [Occurrence(e.text, e.pos)] else [];
      var m := Grouped(occ);
      Grouped(occ + extra)
        == if extra == [] then m else m[e.text := (if e.text in m then m[e.text] else []) + [e.pos]]
  {
    if e.EnterOperatorName? && !IsValidOperator(e.text) {
      assert (occ + [Occurrence(e.text, e.pos)])[..|occ|] == occ;
    } else {
      assert occ + [] == occ;
    }
  }

  // ---------------------------------------------------------------------------
  // validationListener and violations.errors()
  // ---------------------------------------------------------------------------

  /** Moving one name from the names still to visit to the visited ones. */
  lemma VisitOne(ops: map<string, seq<Position>>, visited: seq<string>, todo: set<string>, name: string)
    requires Distinct(visited) && name in todo && name in ops
    requires forall k :: k in visited <==> k in ops && k !in todo
    ensures Distinct(visited + [name])
    ensures forall k :: k in visited + [name] <==> k in ops && k !in todo - {name}
  {
    assert name !in visited;
  }

  class ValidationListener {
    /** violations.Operators: each unsupported operator name with its positions. */
    var operators: map<string, seq<Position>>

    constructor ()
      ensures operators == map[]
    {
      operators := map[];
    }

    /** EnterOperator_name: an unsupported name gets the position appended;
        the other callbacks accept every name and record nothing. */
    method Enter(event: WalkEvent)
      modifies this
      ensures operators == (if event.EnterOperatorName? && !IsValidOperator(event.text)
        then old(operators)[event.text := (if event.text in old(operators) then old(operators)[event.text] else []) + [event.pos]]
        else old(operators))
    {
      if event.EnterOperatorName? && !IsValidOperator(event.text) {
        var ps := if event.text in operators then operators[event.text] else [];
        operators := operators[event.text := ps + [event.pos]];
      }
    }

    /** violations.errors(): one message per recorded position, name by name in
        the map's iteration order; nil when there are none. */
    method Errors() returns (errs: Option<seq<string>>)
      ensures errs.None? <==> forall k :: k in operators ==> operators[k] == []
      ensures errs.Some? ==> errs.value != [] && VisitedInSomeOrder(operators, errs.value)
    {
      var ops := operators;
      var out: seq<string> := [];
      var todo := ops.Keys;
      ghost var visited: seq<string> := [];
      while todo != {}
        invariant todo <= ops.Keys
        invariant Distinct(visited)
        invariant forall k :: k in visited <==> k in ops && k !in todo
        invariant out == Flatten(ops, visited)
        decreases |todo|
      {
        var name :| name in todo;
        var positions := ops[name];
        ghost var before := out;
        var j := 0;
        while j < |positions|
          invariant 0 <= j <= |positions|
          invariant out == before + NameMessages(name, positions[..j])
        {
          var p := positions[j];
          NameMessagesStep(before, name, positions, j);
          out := out + [UnsupportedMessage(Occurrence(name, p))];
          j := j + 1;
        }
        assert positions[..j] == positions;
        FlattenAppend(ops, visited, name);
        VisitOne(ops, visited, todo, name);
        visited := visited + [name];
        todo := todo - {name};
      }
      assert IsEnumerationOf(visited, ops);
      FlattenEmpty(ops, visited);
      if |out| > 0 {
        return Some(out);
      }
      return None;
    }
  }

  ghost predicate IsEnumerationOf(order: seq<string>, ops: map<string, seq<Position>>)
  {
    Distinct(order) && forall k :: k in order <==> k in ops
  }

  /** msgs is what errors() builds for some iteration order of the map. */
  ghost predicate VisitedInSomeOrder(ops: map<string, seq<Position>>, msgs: seq<string>)
  {
    exists order :: IsEnumerationOf(order, ops) && msgs == Flatten(ops, order)
  }

  // ---------------------------------------------------------------------------
  // Validate
  // ---------------------------------------------------------------------------

  /** The parse phase: every report the parser makes reaches the error
      listener, in report order. */
  method ReportSyntaxErrors(reports: seq<SyntaxReport>) returns (listener: CustomErrorListener)
    ensures fresh(listener)
    ensures listener.errors == SyntaxMessages(reports)
  {
    listener := new CustomErrorListener();
    var i := 0;
    while i < |reports|
      invariant 0 <= i <= |reports|
      invariant listener.errors == SyntaxMessages(reports[..i])
    {
      var r := reports[i];
      listener.SyntaxError(r.offendingSymbol, r.line, r.column, r.msg);
      assert reports[..i + 1] == reports[..i] + [r];
      i := i + 1;
    }
    assert reports[..i] == reports;
  }

  /** What one more walk event does to the operators map. */
  lemma WalkStep(walk: seq<WalkEvent>, k: int)
    requires 0 <= k < |walk|
    ensures var e := walk[k];
      var m := Grouped(Unsupported(walk[..k]));
      Grouped(Unsupported(walk[..k + 1]))
        == if e.EnterOperatorName? && !IsValidOperator(e.text) then m[e.text := (if e.text in m then m[e.text] else []) + [e.pos]] else m
  {
    assert walk[..k + 1][..k] == walk[..k];
    GroupedSnoc(Unsupported(walk[..k]), walk[k]);
  }

  /** The tree walk: the validation listener sees every event in order. */
  method WalkTree(walk: seq<WalkEvent>) returns (listener: ValidationListener)
    ensures fresh(listener)
    ensures listener.operators == Grouped(Unsupported(walk))
  {
    listener := new ValidationListener();
    var k := 0;
    while k < |walk|
      invariant 0 <= k <= |walk|
      invariant listener.operators == Grouped(Unsupported(walk[..k]))
      modifies listener
    {
      WalkStep(walk, k);
      listener.Enter(walk[k]);
      k := k + 1;
    }
    assert walk[..k] == walk;
  }

  /** Whatever order errors() visits the names in, its messages are those of
      all the occurrences. */
  lemma EnumerationIsAllMessages(occ: seq<Occurrence>, msgs: seq<string>)
    requires VisitedInSomeOrder(Grouped(occ), msgs)
    ensures multiset(msgs) == multiset(Messages(occ))
  {
    var order :| IsEnumerationOf(order, Grouped(occ)) && msgs == Flatten(Grouped(occ), order);
    forall o | o in occ
      ensures o.name in order
    {
      GroupedKeysOccur(occ, o.name);
    }
    FlattenIsAllMessages(occ, order);
  }

  /** When some operator is unsupported, the map has a name with a position. */
  lemma SomeUnsupportedRecorded(occ: seq<Occurrence>)
    requires occ != []
    ensures exists k :: k in Grouped(occ) && Grouped(occ)[k] != []
  {
    assert occ[0] in occ;
    GroupedKeysOccur(occ, occ[0].name);
    GroupedNonEmpty(occ, occ[0].name);
  }

  /** Validate. The parser's reports reach the error listener during parsing
      and the walk follows it; reported syntax errors win over the operator
      check. */
  method Validate(parse: ParseOutput) returns (errs: Option<seq<string>>)
    ensures parse.reports != [] ==> errs == Some(SyntaxMessages(parse.reports))
    ensures parse.reports == [] ==> (errs.None? <==> Unsupported(parse.walk) == [])
    ensures parse.reports == [] && errs.Some? ==>
      VisitedInSomeOrder(Grouped(Unsupported(parse.walk)), errs.value)
    ensures parse.reports == [] && errs.Some? ==>
      multiset(errs.value) == multiset(Messages(Unsupported(parse.walk)))
  {
    var parserErrors := ReportSyntaxErrors(parse.reports);
    var validationErrors := WalkTree(parse.walk);
    if |parserErrors.errors| > 0 {
      return Some(parserErrors.errors);
    }
    errs := validationErrors.Errors();
    ghost var occ := Unsupported(parse.walk);
    if errs.Some? {
      EnumerationIsAllMessages(occ, errs.value);
    } else if occ != [] {
      SomeUnsupportedRecorded(occ);
    }
  }
}
