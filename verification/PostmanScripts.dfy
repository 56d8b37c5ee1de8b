/**
 * Generated test scripts: one branch for each accepted status, and lines that save fields of the response.
 * A script is judged by its text alone: how its brackets nest, and which lines run for a status code.
 */
module PostmanScripts {
  import opened Wrappers
  import opened Text
  import opened MapOrder

  /** The parts of a request that its test script depends on. */
  datatype RequestConfig = RequestConfig(
    name: string, accept: Option<seq<nat>>, save: Option<map<string, string>>, expected: Option<nat>)

  // ---------------------------------------------------------------- the generator

  /** A trailing question mark makes a field optional. */
  function ParseOptionalField(field: string): (r: (string, bool))
    ensures field == r.0 + if r.1 then "?" else ""
    ensures !r.1 ==> field == "" || field[|field| - 1] != '?'
  {
    if field != "" && field[|field| - 1] == '?' then (field[..|field| - 1], true) else (field, false)
  }

  const SET_CALL := "pm.collectionVariables.set"

  function SetLine(name: string, field: string): string {
    SET_CALL + ("(" + ("'" + name + "', json." + field) + ")") + ";"
  }

  function IfField(indent: string, field: string): string {
    indent + "if " + ("(" + ("json." + field) + ")") + " {"
  }

  function SaveOne(name: string, raw: string, indent: string): seq<string> {
    var (field, optional) := ParseOptionalField(raw);
    if optional then
      [IfField(indent, field), indent + "    " + SetLine(name, field), indent + "}"]
    else [indent + SetLine(name, field)]
  }

  /** The lines for the variables in the order given. */
  function SaveLines(save: map<string, string>, order: seq<string>, indent: string): seq<string>
    requires forall v | v in order :: v in save
  {
    if order == [] then []
    else SaveLines(save, order[..|order| - 1], indent) +
         SaveOne(order[|order| - 1], save[order[|order| - 1]], indent)
  }

  const READ_JSON := "    var json = pm.response.json"

  const JSON_LINE := READ_JSON + "()" + ";"

  function Condition(status: nat): string {
    "(" + ("pm.response.code === " + IntToString(status)) + ")"
  }

  function IfLine(status: nat): string {
    "if " + Condition(status) + " {"
  }

  function ElseIfLine(status: nat): string {
    "} else " + IfLine(status)
  }

  const HAVE_STATUS := "    pm.response.to.have.status"

  /** A test that holds for one status; `title` is what Postman shows. */
  function TestLines(indent: string, title: string, inner: seq<string>, status: nat): seq<string> {
    [indent + "pm.test(" + ("'" + title + "'") + ", function () {",
     indent + HAVE_STATUS + ("(" + IntToString(status) + ")") + ";"]
    + inner + [indent + "});"]
  }

  function MoreBranches(name: string, statuses: seq<nat>): seq<string> {
    if statuses == [] then [] else Branch(name, statuses[0]) + MoreBranches(name, statuses[1..])
  }

  function Branch(name: string, status: nat): seq<string> {
    [ElseIfLine(status)] + TestLines("    ", name + " - already exists (OK)", [], status)
  }

  function SavePart(save: Option<map<string, string>>, order: seq<string>): seq<string>
    requires save.Some? ==> forall v | v in order :: v in save.value
  {
    if save.None? then [] else [JSON_LINE] + SaveLines(save.value, order, "    ")
  }

  /** The script, when the variables to save come in this order; None where the generator panics. */
  function Script(rc: RequestConfig, order: seq<string>): Option<seq<string>>
    requires rc.save.Some? ==> forall v | v in order :: v in rc.save.value
  {
    if rc.accept == Some([]) then None
    else if rc.accept.Some? then
      var primary := rc.accept.value[0];
      Some([IfLine(primary)] + SavePart(rc.save, order) + TestLines("    ", rc.name + " - success", [], primary)
           + MoreBranches(rc.name, rc.accept.value[1..]) + ["}"])
    else if rc.save.Some? then
      var status := if rc.expected.Some? then rc.expected.value else 200;
      Some(TestLines("", rc.name + " - success", SavePart(rc.save, order), status))
    else if rc.expected.Some? then Some(TestLines("", rc.name, [], rc.expected.value))
    else Some([])
  }

  method AppendSave(lines: seq<string>, name: string, raw: string, indent: string) returns (r: seq<string>)
    ensures r == lines + SaveOne(name, raw, indent)
  {
    var (field, optional) := ParseOptionalField(raw);
    if optional {
      r := lines + [IfField(indent, field)];
      r := r + [indent + "    " + SetLine(name, field)];
      r := r + [indent + "}"];
    } else {
      r := lines + [indent + SetLine(name, field)];
    }
  }

  /** `r` is `lines`, and then the lines of every variable, in this order. */
  ghost predicate AreSaves(
    r: seq<string>, lines: seq<string>, save: map<string, string>, indent: string, order: seq<string>)
  {
    IsOrder(order, save.Keys) && r == lines + SaveLines(save, order, indent)
  }

  /** `r` is the script for the request, with the variables to save in this order. */
  ghost predicate IsScript(r: seq<string>, rc: RequestConfig, order: seq<string>) {
    (rc.save.Some? ==> IsOrder(order, rc.save.value.Keys)) && Script(rc, order) == Some(r)
  }

  method AppendSaveLines(lines: seq<string>, save: map<string, string>, indent: string)
    returns (r: seq<string>)
    ensures exists order :: AreSaves(r, lines, save, indent, order)
  {
    hide SaveOne, IsOrder;
    EmptyOrder();
    r := lines;
    ghost var order := [];
    var rest := save.Keys;
    ghost var done := {};
    while rest != {}
      invariant done + rest == save.Keys && done !! rest && IsOrder(order, done)
      invariant forall v | v in order :: v in save
      invariant r == lines + SaveLines(save, order, indent)
    {
      HasName(rest);
      var v :| v in rest;
      r := AppendSave(r, v, save[v], indent);
      assert (order + [v])[..|order|] == order;
      OrderGrows(order, done, v);
      order := order + [v];
      rest, done := rest - {v}, done + {v};
    }
    assert done == save.Keys;
    assert AreSaves(r, lines, save, indent, order);
  }

  method BuildTestScript(rc: RequestConfig) returns (r: Option<seq<string>>)
    ensures r.None? <==> rc.accept == Some([])
    ensures r.Some? ==> exists order :: IsScript(r.value, rc, order)
  {
    hide IfLine, ElseIfLine, TestLines, SaveLines;
    var lines: seq<string> := [];
    ghost var order: seq<string> := [];
    if rc.accept.Some? {
      if |rc.accept.value| == 0 {
        r := None;
        return;
      }
      var accept := rc.accept.value;
      lines := lines + [IfLine(accept[0])];
      if rc.save.Some? {
        lines := lines + [JSON_LINE];
        ghost var before := lines;
        lines := AppendSaveLines(lines, rc.save.value, "    ");
        order :| AreSaves(lines, before, rc.save.value, "    ", order);
      }
      lines := lines + TestLines("    ", rc.name + " - success", [], accept[0]);
      assert lines == [IfLine(accept[0])] + SavePart(rc.save, order) + TestLines("    ", rc.name + " - success", [], accept[0]);
      ghost var head := lines;
      for i := 1 to |accept|
        invariant lines + MoreBranches(rc.name, accept[i..]) == head + MoreBranches(rc.name, accept[1..])
      {
        lines := lines + [ElseIfLine(accept[i])];
        lines := lines + TestLines("    ", rc.name + " - already exists (OK)", [], accept[i]);
        assert accept[i..][1..] == accept[i + 1..];
      }
      assert accept[|accept|..] == [];
      assert lines == head + MoreBranches(rc.name, accept[1..]);
      lines := lines + ["}"];
    } else if rc.save.Some? {
      var saved;
      saved := AppendSaveLines([JSON_LINE], rc.save.value, "    ");
      order :| AreSaves(saved, [JSON_LINE], rc.save.value, "    ", order);
      lines := TestLines("", rc.name + " - success", saved, if rc.expected.Some? then rc.expected.value else 200);
    } else if rc.expected.Some? {
      lines := TestLines("", rc.name, [], rc.expected.value);
    }
    assert IsScript(lines, rc, order);
    r := Some(lines);
  }

  // ---------------------------------------------------------------- how brackets nest

  /** Reads brackets with a stack of the open ones; None where one does not fit. */
  function Scan(s: string, open: seq<char>): Option<seq<char>> {
    if s == "" then Some(open)
    else if s[0] == '(' || s[0] == '{' then Scan(s[1..], [s[0]] + open)
    else if s[0] == ')' then if open != [] && open[0] == '(' then Scan(s[1..], open[1..]) else None
    else if s[0] == '}' then if open != [] && open[0] == '{' then Scan(s[1..], open[1..]) else None
    else Scan(s[1..], open)
  }

  function ScanLines(lines: seq<string>, open: seq<char>): Option<seq<char>> {
    if lines == [] then Some(open)
    else
      var after := Scan(lines[0], open);
      if after.None? then None else ScanLines(lines[1..], after.value)
  }

  predicate Balanced(s: string) {
    Scan(s, []) == Some([])
  }

  predicate Plain(s: string) {
    '(' !in s && ')' !in s && '{' !in s && '}' !in s
  }

  lemma {:induction false} ScanConcat(a: string, b: string, open: seq<char>)
    ensures
      var mid := Scan(a, open);
      Scan(a + b, open) == if mid.None? then None else Scan(b, mid.value)
    decreases |a|
  {
    if a == "" {
      assert a + b == b;
    } else {
      assert (a + b)[0] == a[0] && (a + b)[1..] == a[1..] + b;
      ScanConcat(a[1..], b, [a[0]] + open);
      ScanConcat(a[1..], b, open);
      if open != [] {
        ScanConcat(a[1..], b, open[1..]);
      }
    }
  }

  /** What lies below on the stack does not matter to a text that does not reach it. */
  lemma {:induction false} ScanFrame(s: string, open: seq<char>, below: seq<char>)
    requires Scan(s, open).Some?
    ensures Scan(s, open + below) == Some(Scan(s, open).value + below)
    decreases |s|
  {
    if s != "" {
      if s[0] == '(' || s[0] == '{' {
        ScanFrame(s[1..], [s[0]] + open, below);
        assert [s[0]] + (open + below) == ([s[0]] + open) + below;
      } else if s[0] == ')' || s[0] == '}' {
        ScanFrame(s[1..], open[1..], below);
        assert (open + below)[1..] == open[1..] + below;
      } else {
        ScanFrame(s[1..], open, below);
      }
    }
  }

  lemma {:induction false} ScanPlain(s: string, open: seq<char>)
    requires Plain(s)
    ensures Scan(s, open) == Some(open)
  {
    if s != "" {
      ScanPlain(s[1..], open);
    }
  }

  lemma ScanBalanced(s: string, open: seq<char>)
    requires Balanced(s)
    ensures Scan(s, open) == Some(open)
  {
    ScanFrame(s, [], open);
    assert [] + open == open;
  }

  lemma BalancedConcat(a: string, b: string)
    requires Balanced(a) && Balanced(b)
    ensures Balanced(a + b)
  {
    ScanConcat(a, b, []);
  }

  lemma OneOpens(c: char, open: seq<char>)
    requires c == '(' || c == '{'
    ensures Scan([c], open) == Some([c] + open)
  {
    assert [c][1..] == "";
  }

  lemma OneCloses(c: char, d: char, open: seq<char>)
    requires (c == '(' && d == ')') || (c == '{' && d == '}')
    ensures Scan([d], [c] + open) == Some(open)
  {
    assert [d][1..] == "" && ([c] + open)[1..] == open;
  }

  lemma BalancedInParens(s: string)
    requires Balanced(s)
    ensures Balanced("(" + s + ")")
  {
    ScanConcat("(", s, []);
    ScanBalanced(s, ['(']);
    ScanConcat("(" + s, ")", []);
    OneOpens('(', []);
    OneCloses('(', ')', []);
    assert "(" == ['('] && ")" == [')'] && ['('] + [] == ['('];
  }

  lemma {:induction false} ScanLinesConcat(a: seq<string>, b: seq<string>, open: seq<char>)
    ensures
      var mid := ScanLines(a, open);
      ScanLines(a + b, open) == if mid.None? then None else ScanLines(b, mid.value)
    decreases |a|
  {
    if a == [] {
      assert a + b == b;
    } else {
      assert (a + b)[0] == a[0] && (a + b)[1..] == a[1..] + b;
      var after := Scan(a[0], open);
      if after.Some? {
        ScanLinesConcat(a[1..], b, after.value);
      }
    }
  }

  // ---------------------------------------------------------------- every line

  lemma NumberIsBalanced(n: nat)
    ensures Balanced(IntToString(n))
  {
    ScanPlain(IntToString(n), []);
  }

  lemma PlainIsBalanced(s: string)
    requires Plain(s)
    ensures Balanced(s)
  {
    ScanPlain(s, []);
  }

  lemma ConditionIsBalanced(status: nat)
    ensures Balanced(Condition(status))
  {
    hide Balanced;
    NumberIsBalanced(status);
    PlainIsBalanced("pm.response.code === ");
    BalancedConcat("pm.response.code === ", IntToString(status));
    BalancedInParens("pm.response.code === " + IntToString(status));
  }

  lemma IfLineOpens(status: nat, open: seq<char>)
    ensures Scan(IfLine(status), open) == Some(['{'] + open)
  {
    hide Scan, Balanced, Condition;
    ScanPlain("if ", open);
    ConditionIsBalanced(status);
    ScanBalanced(Condition(status), open);
    ScanConcat("if ", Condition(status), open);
    OpenBrace(open);
    ScanConcat("if " + Condition(status), " {", open);
  }

  lemma OpenBrace(open: seq<char>)
    ensures Scan(" {", open) == Some(['{'] + open)
  {
    ScanConcat(" ", "{", open);
    ScanPlain(" ", open);
    OneOpens('{', open);
    assert " " + "{" == " {" && "{" == ['{'];
  }

  lemma ElseIfLineKeeps(status: nat, open: seq<char>)
    ensures Scan(ElseIfLine(status), ['{'] + open) == Some(['{'] + open)
  {
    hide Scan, IfLine;
    CloseElse(open);
    IfLineOpens(status, open);
    ScanConcat("} else ", IfLine(status), ['{'] + open);
  }

  lemma CloseElse(open: seq<char>)
    ensures Scan("} else ", ['{'] + open) == Some(open)
  {
    assert "} else "[1..] == " else " && (['{'] + open)[1..] == open;
    ScanPlain(" else ", open);
  }

  lemma PlainParts(name: string, field: string)
    requires Plain(name) && Plain(field)
    ensures Plain("'" + name + "', json." + field) && Plain("json." + field)
  {
  }

  lemma SetCallHasNoParentheses()
    ensures '(' !in SET_CALL && ')' !in SET_CALL
  {
  }

  lemma SetCallHasNoBraces()
    ensures '{' !in SET_CALL && '}' !in SET_CALL
  {
  }

  lemma SetCallIsPlain()
    ensures Plain(SET_CALL)
  {
    SetCallHasNoParentheses();
    SetCallHasNoBraces();
    hide SET_CALL;
  }

  lemma SemicolonIsPlain()
    ensures Plain(";")
  {
  }

  lemma SetLineIsBalanced(name: string, field: string)
    requires Plain(name) && Plain(field)
    ensures Balanced(SetLine(name, field))
  {
    hide Balanced, Plain;
    SetCallIsPlain();
    SemicolonIsPlain();
    PlainIsBalanced(SET_CALL);
    PlainIsBalanced(";");
    PlainParts(name, field);
    var args := "'" + name + "', json." + field;
    PlainIsBalanced(args);
    BalancedInParens(args);
    BalancedConcat(SET_CALL, "(" + args + ")");
    BalancedConcat(SET_CALL + ("(" + args + ")"), ";");
  }

  lemma ScanPlainThen(a: string, b: string, open: seq<char>)
    requires Plain(a)
    ensures Scan(a + b, open) == Scan(b, open)
  {
    ScanPlain(a, open);
    ScanConcat(a, b, open);
  }

  /** Lines that leave the brackets as they were. */
  ghost predicate Neutral(lines: seq<string>) {
    forall open :: ScanLines(lines, open) == Some(open)
  }

  lemma LineIsNeutral(s: string)
    requires Balanced(s)
    ensures Neutral([s])
  {
    forall open ensures ScanLines([s], open) == Some(open) {
      ScanBalanced(s, open);
      assert [s][1..] == [];
    }
  }

  lemma NothingIsNeutral()
    ensures Neutral([])
  {
  }

  lemma NeutralConcat(a: seq<string>, b: seq<string>)
    requires Neutral(a) && Neutral(b)
    ensures Neutral(a + b)
  {
    forall open ensures ScanLines(a + b, open) == Some(open) {
      ScanLinesConcat(a, b, open);
    }
  }

  ghost predicate Opens(line: string, brackets: seq<char>) {
    forall open :: Scan(line, open) == Some(brackets + open)
  }

  ghost predicate Closes(line: string, brackets: seq<char>) {
    forall open :: Scan(line, brackets + open) == Some(open)
  }

  /** A line that opens brackets, neutral lines, and a line that closes them. */
  lemma NeutralBlock(first: string, inner: seq<string>, last: string, brackets: seq<char>)
    requires Opens(first, brackets) && Neutral(inner) && Closes(last, brackets)
    ensures Neutral([first] + inner + [last])
  {
    forall open ensures ScanLines([first] + inner + [last], open) == Some(open) {
      ScanLinesConcat([first], inner, open);
      ScanLinesConcat([first] + inner, [last], open);
      assert [first][1..] == [] && [last][1..] == [];
    }
  }

  lemma BalancedAfter(a: string, b: string)
    requires Plain(a) && Balanced(b)
    ensures Balanced(a + b)
  {
    ScanPlainThen(a, b, []);
  }

  lemma IfFieldOpens(indent: string, field: string)
    requires Plain(indent) && Plain(field)
    ensures Opens(IfField(indent, field), "{")
  {
    PlainParts("", field);
    ShortLiteralsArePlain();
    hide Scan, Balanced, Plain;
    PlainIsBalanced("json." + field);
    BalancedInParens("json." + field);
    var test := "(" + ("json." + field) + ")";
    forall open ensures Scan(IfField(indent, field), open) == Some("{" + open) {
      ScanPlain(indent, open);
      ScanConcat(indent, "if ", open);
      ScanPlain("if ", open);
      ScanConcat(indent + "if ", test, open);
      ScanBalanced(test, open);
      OpenBrace(open);
      ScanConcat(indent + "if " + test, " {", open);
      assert ['{'] == "{";
    }
  }

  lemma ShortLiteralsArePlain()
    ensures Plain("if ") && Plain("    ") && Plain(";") && Plain("")
  {
  }

  lemma IndentedBraceCloses(indent: string)
    requires Plain(indent)
    ensures Closes(indent + "}", "{")
  {
    forall open ensures Scan(indent + "}", "{" + open) == Some(open) {
      ScanPlainThen(indent, "}", "{" + open);
      OneCloses('{', '}', open);
      assert ['{'] == "{" && ['}'] == "}";
    }
  }

  lemma OptionalSaveIsNeutral(name: string, field: string, indent: string)
    requires Plain(name) && Plain(field) && Plain(indent) && Plain(indent + "    ")
    ensures Neutral([IfField(indent, field), indent + "    " + SetLine(name, field), indent + "}"])
  {
    hide Neutral, SetLine, Balanced, Plain, IfField, Opens, Closes;
    var set_ := indent + "    " + SetLine(name, field);
    SetLineIsBalanced(name, field);
    BalancedAfter(indent + "    ", SetLine(name, field));
    LineIsNeutral(set_);
    IfFieldOpens(indent, field);
    IndentedBraceCloses(indent);
    NeutralBlock(IfField(indent, field), [set_], indent + "}", "{");
    assert [IfField(indent, field), set_, indent + "}"] == [IfField(indent, field)] + [set_] + [indent + "}"];
  }

  lemma SaveOneIsNeutral(name: string, raw: string, indent: string)
    requires Plain(name) && Plain(raw) && Plain(indent)
    ensures Neutral(SaveOne(name, raw, indent))
  {
    var (field, optional) := ParseOptionalField(raw);
    assert Plain(field) && Plain(indent + "    ");
    hide Neutral, SetLine, Balanced, Plain, IfField;
    if optional {
      OptionalSaveIsNeutral(name, field, indent);
    } else {
      SetLineIsBalanced(name, field);
      BalancedAfter(indent, SetLine(name, field));
      LineIsNeutral(indent + SetLine(name, field));
    }
  }

  predicate PlainSaves(save: map<string, string>) {
    forall v | v in save :: Plain(v) && Plain(save[v])
  }

  lemma {:induction false} SaveLinesAreNeutral(save: map<string, string>, order: seq<string>, indent: string)
    requires (forall v | v in order :: v in save) && PlainSaves(save) && Plain(indent)
    ensures Neutral(SaveLines(save, order, indent))
  {
    hide Neutral, Plain, SaveOne;
    if order == [] {
      NothingIsNeutral();
    } else {
      var v := order[|order| - 1];
      SaveLinesAreNeutral(save, order[..|order| - 1], indent);
      SaveOneIsNeutral(v, save[v], indent);
      NeutralConcat(SaveLines(save, order[..|order| - 1], indent), SaveOne(v, save[v], indent));
    }
  }

  lemma ReadJsonIsPlain()
    ensures Plain(READ_JSON)
  {
    ReadJsonHasNoParentheses();
    ReadJsonHasNoBraces();
    hide READ_JSON;
  }

  lemma ReadJsonHasNoParentheses()
    ensures '(' !in READ_JSON && ')' !in READ_JSON
  {
  }

  lemma ReadJsonHasNoBraces()
    ensures '{' !in READ_JSON && '}' !in READ_JSON
  {
  }

  lemma HaveStatusIsPlain()
    ensures Plain(HAVE_STATUS)
  {
    HaveStatusHasNoParentheses();
    HaveStatusHasNoBraces();
    hide HAVE_STATUS;
  }

  lemma HaveStatusHasNoParentheses()
    ensures '(' !in HAVE_STATUS && ')' !in HAVE_STATUS
  {
  }

  lemma HaveStatusHasNoBraces()
    ensures '{' !in HAVE_STATUS && '}' !in HAVE_STATUS
  {
  }

  lemma JsonLineIsNeutral()
    ensures Neutral([JSON_LINE])
  {
    ShortLiteralsArePlain();
    hide Balanced, Plain, READ_JSON;
    ReadJsonIsPlain();
    PlainIsBalanced("");
    BalancedInParens("");
    assert "(" + "" + ")" == "()";
    BalancedAfter(READ_JSON, "()");
    PlainIsBalanced(";");
    BalancedConcat(READ_JSON + "()", ";");
    LineIsNeutral(JSON_LINE);
  }

  lemma StatusLineIsNeutral(indent: string, status: nat)
    requires Plain(indent)
    ensures Neutral([indent + HAVE_STATUS + ("(" + IntToString(status) + ")") + ";"])
  {
    ShortLiteralsArePlain();
    hide Balanced, HAVE_STATUS;
    HaveStatusIsPlain();
    assert Plain(indent + HAVE_STATUS);
    hide Plain;
    var number := "(" + IntToString(status) + ")";
    NumberIsBalanced(status);
    BalancedInParens(IntToString(status));
    BalancedAfter(indent + HAVE_STATUS, number);
    PlainIsBalanced(";");
    BalancedConcat(indent + HAVE_STATUS + number, ";");
    LineIsNeutral(indent + HAVE_STATUS + number + ";");
  }

  lemma QuotedIsBalanced(title: string)
    requires Balanced(title)
    ensures Balanced("'" + title + "'")
  {
    assert Plain("'");
    hide Balanced, Plain;
    PlainIsBalanced("'");
    BalancedConcat("'", title);
    BalancedConcat("'" + title, "'");
  }

  lemma TestCallOpens(indent: string, open: seq<char>)
    requires Plain(indent)
    ensures Scan(indent + "pm.test(", open) == Some(['('] + open)
  {
    assert Plain("pm.test");
    hide Plain, Scan;
    ScanPlainThen(indent, "pm.test(", open);
    ScanPlainThen("pm.test", "(", open);
    OneOpens('(', open);
    assert "pm.test" + "(" == "pm.test(" && ['('] == "(";
  }

  lemma FunctionOpens(open: seq<char>)
    ensures Scan(", function () {", open) == Some(['{'] + open)
  {
    assert Plain(", function ") && Plain("");
    hide Plain, Scan, Balanced;
    PlainIsBalanced("");
    BalancedInParens("");
    assert "(" + "" + ")" == "()";
    ScanBalanced("()", open);
    OpenBrace(open);
    ScanConcat("()", " {", open);
    ScanPlainThen(", function ", "() {", open);
    assert "()" + " {" == "() {" && ", function " + "() {" == ", function () {";
  }

  lemma TestLineOpens(indent: string, title: string)
    requires Plain(indent) && Balanced(title)
    ensures Opens(indent + "pm.test(" + ("'" + title + "'") + ", function () {", "{(")
  {
    hide Plain, Scan, Balanced;
    var quoted := "'" + title + "'";
    QuotedIsBalanced(title);
    forall open ensures Scan(indent + "pm.test(" + quoted + ", function () {", open) == Some("{(" + open) {
      TestCallOpens(indent, open);
      ScanBalanced(quoted, ['('] + open);
      ScanConcat(indent + "pm.test(", quoted, open);
      FunctionOpens(['('] + open);
      ScanConcat(indent + "pm.test(" + quoted, ", function () {", open);
      assert ['{'] + (['('] + open) == "{(" + open;
    }
  }

  lemma TestEndCloses(indent: string)
    requires Plain(indent)
    ensures Closes(indent + "});", "{(")
  {
    ShortLiteralsArePlain();
    hide Plain, Scan;
    forall open ensures Scan(indent + "});", "{(" + open) == Some(open) {
      var rest := ['('] + open;
      assert "{(" + open == ['{'] + rest && "}" + ");" == "});" && ")" + ";" == ");" && ['}'] == "}" && [')'] == ")";
      ScanPlainThen(indent, "});", ['{'] + rest);
      OneCloses('{', '}', rest);
      ScanConcat("}", ");", ['{'] + rest);
      OneCloses('(', ')', open);
      ScanConcat(")", ";", rest);
      ScanPlain(";", open);
    }
  }

  lemma TestIsNeutral(indent: string, title: string, inner: seq<string>, status: nat)
    requires Plain(indent) && Balanced(title) && Neutral(inner)
    ensures Neutral(TestLines(indent, title, inner, status))
  {
    hide Plain, Balanced, Neutral, Opens, Closes, HAVE_STATUS, IntToString, Scan, ScanLines;
    var first := indent + "pm.test(" + ("'" + title + "'") + ", function () {";
    var check := indent + HAVE_STATUS + ("(" + IntToString(status) + ")") + ";";
    TestLineOpens(indent, title);
    StatusLineIsNeutral(indent, status);
    NeutralConcat([check], inner);
    TestEndCloses(indent);
    NeutralBlock(first, [check] + inner, indent + "});", "{(");
    assert TestLines(indent, title, inner, status) == [first] + ([check] + inner) + [indent + "});"];
  }

  lemma TitledIsBalanced(name: string)
    requires Balanced(name)
    ensures Balanced(name + " - success") && Balanced(name + " - already exists (OK)")
  {
    assert Plain(" - success") && Plain(" - already exists ") && Plain("OK");
    hide Plain, Balanced;
    PlainIsBalanced(" - success");
    BalancedConcat(name, " - success");
    PlainIsBalanced("OK");
    BalancedInParens("OK");
    assert "(" + "OK" + ")" == "(OK)";
    BalancedAfter(" - already exists ", "(OK)");
    assert " - already exists " + "(OK)" == " - already exists (OK)";
    BalancedConcat(name, " - already exists (OK)");
  }

  // ---------------------------------------------------------------- the whole script

  lemma {:induction false} MoreBranchesKeep(name: string, statuses: seq<nat>)
    requires Balanced(name)
    ensures ScanLines(MoreBranches(name, statuses), ['{']) == Some(['{'])
  {
    ShortLiteralsArePlain();
    hide Balanced, Scan, Plain, TestLines, ElseIfLine;
    if statuses != [] {
      var title := name + " - already exists (OK)";
      var status := statuses[0];
      TitledIsBalanced(name);
      NothingIsNeutral();
      TestIsNeutral("    ", title, [], status);
      ElseIfLineKeeps(status, []);
      assert ['{'] + [] == ['{'];
      var test := TestLines("    ", title, [], status);
      ScanLinesConcat([ElseIfLine(status)], test, ['{']);
      assert [ElseIfLine(status)][1..] == [];
      ScanLinesConcat(Branch(name, status), MoreBranches(name, statuses[1..]), ['{']);
      MoreBranchesKeep(name, statuses[1..]);
    }
  }

  predicate SavesArePlain(rc: RequestConfig) {
    rc.save.Some? ==> PlainSaves(rc.save.value)
  }

  lemma SavePartIsNeutral(save: Option<map<string, string>>, order: seq<string>)
    requires save.Some? ==> PlainSaves(save.value) && forall v | v in order :: v in save.value
    ensures Neutral(SavePart(save, order))
  {
    ShortLiteralsArePlain();
    hide Plain, Neutral, PlainSaves;
    if save.None? {
      NothingIsNeutral();
    } else {
      JsonLineIsNeutral();
      SaveLinesAreNeutral(save.value, order, "    ");
      NeutralConcat([JSON_LINE], SaveLines(save.value, order, "    "));
    }
  }

  lemma ChainIsBracketed(first: nat, body: seq<string>, more: seq<string>)
    requires Neutral(body) && ScanLines(more, ['{']) == Some(['{'])
    ensures ScanLines([IfLine(first)] + body + more + ["}"], []) == Some([])
  {
    hide IfLine, Scan;
    IfLineOpens(first, []);
    assert ['{'] + [] == ['{'] && [IfLine(first)][1..] == [];
    ScanLinesConcat([IfLine(first)], body, []);
    ScanLinesConcat([IfLine(first)] + body, more, []);
    ScanLinesConcat([IfLine(first)] + body + more, ["}"], []);
    OneCloses('{', '}', []);
    assert ['}'] == "}" && ["}"][1..] == [];
  }

  /**
   * Every script nests its parentheses and braces correctly: whatever is accepted, saved or expected, as
   * long as the brackets of the request's name match and the variables and fields to save have none.
   */
  lemma ScriptIsWellBracketed(rc: RequestConfig, order: seq<string>)
    requires Balanced(rc.name) && SavesArePlain(rc)
    requires rc.save.Some? ==> forall v | v in order :: v in rc.save.value
    ensures
      var script := Script(rc, order);
      script.Some? ==> ScanLines(script.value, []) == Some([])
  {
    ShortLiteralsArePlain();
    hide Balanced, Plain, IfLine, TestLines, SavePart, MoreBranches, PlainSaves;
    SavePartIsNeutral(rc.save, order);
    TitledIsBalanced(rc.name);
    NothingIsNeutral();
    if rc.accept.Some? && rc.accept.value != [] {
      var primary := rc.accept.value[0];
      var saves, test := SavePart(rc.save, order), TestLines("    ", rc.name + " - success", [], primary);
      var more := MoreBranches(rc.name, rc.accept.value[1..]);
      TestIsNeutral("    ", rc.name + " - success", [], primary);
      NeutralConcat(saves, test);
      MoreBranchesKeep(rc.name, rc.accept.value[1..]);
      ChainIsBracketed(primary, saves + test, more);
      assert [IfLine(primary)] + saves + test == [IfLine(primary)] + (saves + test);
    } else if rc.accept.None? && rc.save.Some? {
      var status := if rc.expected.Some? then rc.expected.value else 200;
      TestIsNeutral("", rc.name + " - success", SavePart(rc.save, order), status);
    } else if rc.accept.None? && rc.expected.Some? {
      TestIsNeutral("", rc.name, [], rc.expected.value);
    }
  }
}
