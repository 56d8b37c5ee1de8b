/** What a generated script does for a response: which of its lines run, and which of those save a variable. */
module PostmanBranches {
  import opened Wrappers
  import opened Text
  import opened MapOrder
  import opened PostmanScripts

  predicate Indented(line: string) {
    line != "" && line[0] == ' '
  }

  predicate AllIndented(lines: seq<string>) {
    forall i | 0 <= i < |lines| :: Indented(lines[i])
  }

  /** The indented lines at the front. */
  function Body(lines: seq<string>): seq<string> {
    if lines == [] || !Indented(lines[0]) then [] else [lines[0]] + Body(lines[1..])
  }

  /** Of a chain of branches, the lines that run for a status code: the body of the first branch for it. */
  function Executed(lines: seq<string>, code: nat): seq<string> {
    if lines == [] then []
    else if lines[0] == IfLine(code) || lines[0] == ElseIfLine(code) then Body(lines[1..])
    else Executed(lines[1..], code)
  }

  // ---------------------------------------------------------------- bodies and headers

  lemma {:induction false} BodyOfBlock(block: seq<string>, rest: seq<string>)
    requires AllIndented(block) && (rest == [] || !Indented(rest[0]))
    ensures Body(block + rest) == block
    decreases |block|
  {
    if block == [] {
      assert block + rest == rest;
    } else {
      assert (block + rest)[0] == block[0] && (block + rest)[1..] == block[1..] + rest;
      BodyOfBlock(block[1..], rest);
    }
  }

  lemma HeaderStarts(code: nat)
    ensures IfLine(code) != "" && IfLine(code)[0] == 'i'
    ensures ElseIfLine(code) != "" && ElseIfLine(code)[0] == '}' && |ElseIfLine(code)| > 1
  {
    hide Condition;
  }

  lemma {:induction false} ExecutedSkips(block: seq<string>, rest: seq<string>, code: nat)
    requires AllIndented(block)
    ensures Executed(block + rest, code) == Executed(rest, code)
    decreases |block|
  {
    hide IfLine, ElseIfLine;
    if block == [] {
      assert block + rest == rest;
    } else {
      assert (block + rest)[0] == block[0] && (block + rest)[1..] == block[1..] + rest;
      HeaderStarts(code);
      ExecutedSkips(block[1..], rest, code);
    }
  }

  lemma Cancel(before: string, x: string, y: string, after: string)
    requires before + x + after == before + y + after
    ensures x == y
  {
    var s := before + x + after;
    assert |x| == |y| && s[|before|..|before| + |x|] == x && (before + y + after)[|before|..|before| + |y|] == y;
  }

  lemma ConditionInjective(a: nat, b: nat)
    requires Condition(a) == Condition(b)
    ensures a == b
  {
    hide IntToString;
    var x, y := IntToString(a), IntToString(b);
    Cancel("(", "pm.response.code === " + x, "pm.response.code === " + y, ")");
    assert "pm.response.code === " + x + "" == "pm.response.code === " + y + "";
    Cancel("pm.response.code === ", x, y, "");
    IntToStringInjective(a, b);
  }

  /** A header stands for one status code only. */
  lemma IfLineInjective(a: nat, b: nat)
    requires IfLine(a) == IfLine(b)
    ensures a == b
  {
    hide Condition;
    var x, y := IfLine(a), IfLine(b);
    assert x[3..|x| - 2] == Condition(a) && y[3..|y| - 2] == Condition(b);
    ConditionInjective(a, b);
  }

  lemma ElseIfLineInjective(a: nat, b: nat)
    requires ElseIfLine(a) == ElseIfLine(b)
    ensures a == b
  {
    hide IfLine;
    assert ElseIfLine(a)[7..] == IfLine(a) && ElseIfLine(b)[7..] == IfLine(b);
    IfLineInjective(a, b);
  }

  // ---------------------------------------------------------------- what runs

  lemma {:induction false} SaveLinesAreIndented(save: map<string, string>, order: seq<string>, indent: string)
    requires (forall v | v in order :: v in save) && Indented(indent)
    ensures AllIndented(SaveLines(save, order, indent))
  {
    hide SetLine;
    if order != [] {
      SaveLinesAreIndented(save, order[..|order| - 1], indent);
    }
  }

  lemma TestIsIndented(title: string, status: nat)
    ensures AllIndented(TestLines("    ", title, [], status))
  {
    hide IntToString;
  }

  lemma SavePartIsIndented(save: Option<map<string, string>>, order: seq<string>)
    requires save.Some? ==> forall v | v in order :: v in save.value
    ensures AllIndented(SavePart(save, order))
  {
    if save.Some? {
      SaveLinesAreIndented(save.value, order, "    ");
      hide SaveLines;
    }
  }

  function Again(name: string, code: nat): seq<string> {
    TestLines("    ", name + " - already exists (OK)", [], code)
  }

  lemma {:induction false} ExecutedOfMore(name: string, statuses: seq<nat>, code: nat)
    ensures
      Executed(MoreBranches(name, statuses) + ["}"], code) == if code in statuses then Again(name, code) else []
  {
    hide ElseIfLine, IfLine, TestLines;
    HeaderStarts(code);
    var chain := MoreBranches(name, statuses) + ["}"];
    if statuses != [] {
      var s := statuses[0];
      var rest := MoreBranches(name, statuses[1..]) + ["}"];
      assert chain == [ElseIfLine(s)] + (Again(name, s) + rest);
      assert chain[1..] == Again(name, s) + rest;
      TestIsIndented(name + " - already exists (OK)", s);
      HeaderStarts(s);
      StartOfMore(name, statuses[1..]);
      ExecutedOfMore(name, statuses[1..], code);
      if s == code {
        BodyOfBlock(Again(name, s), rest);
      } else {
        if ElseIfLine(s) == ElseIfLine(code) { ElseIfLineInjective(s, code); }
        ExecutedSkips(Again(name, s), rest, code);
      }
    }
  }

  lemma StartOfMore(name: string, statuses: seq<nat>)
    ensures !Indented((MoreBranches(name, statuses) + ["}"])[0])
  {
    hide ElseIfLine, TestLines;
    if statuses != [] {
      HeaderStarts(statuses[0]);
    }
  }

  function FirstBody(rc: RequestConfig, order: seq<string>, primary: nat): seq<string>
    requires rc.save.Some? ==> forall v | v in order :: v in rc.save.value
  {
    SavePart(rc.save, order) + TestLines("    ", rc.name + " - success", [], primary)
  }

  /**
   * For the first accepted status the saves and the success test run, for another accepted status its own
   * test alone, and for any other status nothing.
   */
  lemma OneBranchPerStatus(rc: RequestConfig, order: seq<string>, code: nat)
    requires rc.accept.Some? && rc.accept.value != []
    requires rc.save.Some? ==> forall v | v in order :: v in rc.save.value
    ensures
      var accept := rc.accept.value;
      Executed(Script(rc, order).value, code) ==
      if code == accept[0] then FirstBody(rc, order, code)
      else if code in accept then Again(rc.name, code)
      else []
  {
    hide IfLine, ElseIfLine, TestLines, SavePart, MoreBranches;
    var accept := rc.accept.value;
    var first := FirstBody(rc, order, accept[0]);
    var more := MoreBranches(rc.name, accept[1..]) + ["}"];
    var script := Script(rc, order).value;
    assert script == [IfLine(accept[0])] + (first + more);
    assert script[1..] == first + more;
    SavePartIsIndented(rc.save, order);
    TestIsIndented(rc.name + " - success", accept[0]);
    StartOfMore(rc.name, accept[1..]);
    HeaderStarts(accept[0]);
    HeaderStarts(code);
    if code == accept[0] {
      BodyOfBlock(first, more);
    } else {
      if IfLine(accept[0]) == IfLine(code) { IfLineInjective(accept[0], code); }
      ExecutedSkips(first, more, code);
      ExecutedOfMore(rc.name, accept[1..], code);
    }
  }

  // ---------------------------------------------------------------- the order of the branches

  /** The lines that are not indented. */
  function Headers(lines: seq<string>): seq<string> {
    if lines == [] then []
    else if Indented(lines[0]) then Headers(lines[1..])
    else [lines[0]] + Headers(lines[1..])
  }

  function ElseIfLines(statuses: seq<nat>): (r: seq<string>)
    ensures |r| == |statuses| && forall i | 0 <= i < |r| :: r[i] == ElseIfLine(statuses[i])
  {
    if statuses == [] then [] else [ElseIfLine(statuses[0])] + ElseIfLines(statuses[1..])
  }

  lemma {:induction false} HeadersSkip(block: seq<string>, rest: seq<string>)
    requires AllIndented(block)
    ensures Headers(block + rest) == Headers(rest)
    decreases |block|
  {
    if block == [] {
      assert block + rest == rest;
    } else {
      assert (block + rest)[0] == block[0] && (block + rest)[1..] == block[1..] + rest;
      HeadersSkip(block[1..], rest);
    }
  }

  lemma HeaderThen(header: string, block: seq<string>, rest: seq<string>)
    requires !Indented(header) && AllIndented(block)
    ensures Headers([header] + (block + rest)) == [header] + Headers(rest)
  {
    HeadersSkip(block, rest);
    var lines := [header] + (block + rest);
    assert lines[0] == header && lines[1..] == block + rest;
  }

  lemma {:induction false} HeadersOfMore(name: string, statuses: seq<nat>)
    ensures Headers(MoreBranches(name, statuses) + ["}"]) == ElseIfLines(statuses) + ["}"]
  {
    hide ElseIfLine, TestLines, Headers;
    if statuses == [] {
      HeaderThen("}", [], []);
      HeadersOfNone();
      assert MoreBranches(name, statuses) + ["}"] == ["}"] + ([] + []);
    } else {
      var s := statuses[0];
      var rest := MoreBranches(name, statuses[1..]) + ["}"];
      HeaderStarts(s);
      TestIsIndented(name + " - already exists (OK)", s);
      HeaderThen(ElseIfLine(s), Again(name, s), rest);
      HeadersOfMore(name, statuses[1..]);
      assert MoreBranches(name, statuses) + ["}"] == [ElseIfLine(s)] + (Again(name, s) + rest);
      assert ElseIfLines(statuses) == [ElseIfLine(s)] + ElseIfLines(statuses[1..]);
    }
  }

  lemma HeadersOfNone()
    ensures Headers([]) == []
  {
  }

  /** One branch for each accepted status, in the order of the list. */
  lemma BranchesInOrder(rc: RequestConfig, order: seq<string>)
    requires rc.accept.Some? && rc.accept.value != []
    requires rc.save.Some? ==> forall v | v in order :: v in rc.save.value
    ensures
      Headers(Script(rc, order).value) == [IfLine(rc.accept.value[0])] + ElseIfLines(rc.accept.value[1..]) + ["}"]
  {
    hide IfLine, ElseIfLine, TestLines, SavePart, MoreBranches, Headers;
    var accept := rc.accept.value;
    var first, more := FirstBody(rc, order, accept[0]), MoreBranches(rc.name, accept[1..]) + ["}"];
    HeaderStarts(accept[0]);
    SavePartIsIndented(rc.save, order);
    TestIsIndented(rc.name + " - success", accept[0]);
    HeaderThen(IfLine(accept[0]), first, more);
    HeadersOfMore(rc.name, accept[1..]);
    assert Script(rc, order).value == [IfLine(accept[0])] + (first + more);
  }

  // ---------------------------------------------------------------- what is saved

  function Trimmed(line: string): string {
    if line != "" && line[0] == ' ' then Trimmed(line[1..]) else line
  }

  /** The line sets a collection variable. */
  predicate SetsVariable(line: string) {
    SET_CALL <= Trimmed(line)
  }

  /** The line sets this variable to this field of the response. */
  predicate Sets(line: string, name: string, field: string) {
    Trimmed(line) == "pm.collectionVariables.set('" + name + "', json." + field + ");"
  }

  lemma {:induction false} TrimmedAfterSpaces(n: nat, spaces: string, rest: string)
    requires |spaces| == n && (forall i | 0 <= i < n :: spaces[i] == ' ') && (rest == "" || rest[0] != ' ')
    ensures Trimmed(spaces + rest) == rest
  {
    if n == 0 {
      assert spaces + rest == rest;
    } else {
      assert (spaces + rest)[1..] == spaces[1..] + rest;
      TrimmedAfterSpaces(n - 1, spaces[1..], rest);
    }
  }

  lemma SetLineSets(indent: string, name: string, field: string)
    requires forall i | 0 <= i < |indent| :: indent[i] == ' '
    ensures Sets(indent + SetLine(name, field), name, field) && SetsVariable(indent + SetLine(name, field))
  {
    assert SET_CALL <= SetLine(name, field) && SetLine(name, field)[0] == 'p';
    TrimmedAfterSpaces(|indent|, indent, SetLine(name, field));
    SetLineSpelt(name, field);
  }

  lemma SetLineSpelt(name: string, field: string)
    ensures SetLine(name, field) == "pm.collectionVariables.set('" + name + "', json." + field + ");"
  {
    assert "pm.collectionVariables.set('" == SET_CALL + "('";
    hide SET_CALL;
    assert "('" == "(" + "'" && ");" == ")" + ";";
  }

  lemma OtherLine(indent: string, rest: string)
    requires forall i | 0 <= i < |indent| :: indent[i] == ' '
    requires rest != "" && rest[0] != ' ' && (rest[0] == 'p' ==> |rest| > 3 && rest[3] != 'c')
    ensures !SetsVariable(indent + rest)
  {
    TrimmedAfterSpaces(|indent|, indent, rest);
    assert SET_CALL[0] == 'p' && SET_CALL[3] == 'c';
  }

  /** The line checks the response for this status. */
  predicate Checks(line: string, status: nat) {
    Trimmed(line) == "pm.response.to.have.status(" + IntToString(status) + ");"
  }

  lemma CheckLineChecks(indent: string, status: nat)
    requires forall i | 0 <= i < |indent| :: indent[i] == ' '
    ensures Checks(indent + HAVE_STATUS + ("(" + IntToString(status) + ")") + ";", status)
  {
    hide IntToString;
    var call := "pm.response.to.have.status" + (("(" + IntToString(status) + ")") + ";");
    TrimmedAfterSpaces(|indent + "    "|, indent + "    ", call);
    assert HAVE_STATUS == "    " + "pm.response.to.have.status";
    assert "pm.response.to.have.status(" == "pm.response.to.have.status" + "(" && ");" == ")" + ";";
    hide HAVE_STATUS, Trimmed;
    assert indent + HAVE_STATUS + ("(" + IntToString(status) + ")") + ";" == (indent + "    ") + call;
  }

  /** The branch that runs for an accepted status checks for that status; nothing runs for any other. */
  lemma BranchChecksItsStatus(rc: RequestConfig, order: seq<string>, code: nat)
    requires rc.accept.Some? && rc.accept.value != []
    requires rc.save.Some? ==> forall v | v in order :: v in rc.save.value
    ensures
      var lines := Executed(Script(rc, order).value, code);
      if code in rc.accept.value then exists i :: 0 <= i < |lines| && Checks(lines[i], code) else lines == []
  {
    hide MoreBranches, IfLine, Executed, Checks, HAVE_STATUS, IntToString, SavePart;
    OneBranchPerStatus(rc, order, code);
    CheckLineChecks("    ", code);
    var lines := Executed(Script(rc, order).value, code);
    var at := if code == rc.accept.value[0] then |SavePart(rc.save, order)| + 1 else 1;
    assert code in rc.accept.value ==>
      lines[at] == "    " + HAVE_STATUS + ("(" + IntToString(code) + ")") + ";" && Checks(lines[at], code);
  }

  predicate NoneSets(lines: seq<string>) {
    forall i | 0 <= i < |lines| :: !SetsVariable(lines[i])
  }

  lemma TestSetsNothing(title: string, status: nat)
    ensures NoneSets(TestLines("    ", title, [], status))
  {
    hide SetsVariable, IntToString, SET_CALL;
    var lines := TestLines("    ", title, [], status);
    var call := "pm.test(" + (("'" + title + "'") + ", function () {");
    var check := "pm.response.to.have.status" + (("(" + IntToString(status) + ")") + ";");
    OtherLine("    ", call);
    OtherLine("        ", check);
    OtherLine("    ", "});");
    assert lines[0] == "    " + call;
    assert lines[1] == "        " + check by {
      assert "    " + HAVE_STATUS == "        " + "pm.response.to.have.status";
    }
  }

  lemma JsonLineSetsNothing()
    ensures NoneSets([JSON_LINE])
  {
    hide SetsVariable, SET_CALL;
    var rest := READ_JSON[4..] + ("()" + ";");
    assert READ_JSON[..4] == "    " && READ_JSON == READ_JSON[..4] + READ_JSON[4..];
    hide READ_JSON;
    assert JSON_LINE == "    " + rest;
    OtherLine("    ", rest);
  }

  /** One of the lines sets this variable to this field. */
  predicate SavedIn(lines: seq<string>, name: string, field: string) {
    exists i :: 0 <= i < |lines| && SetsVariable(lines[i]) && Sets(lines[i], name, field)
  }

  lemma SavedInLarger(before: seq<string>, lines: seq<string>, after: seq<string>, name: string, field: string)
    requires SavedIn(lines, name, field)
    ensures SavedIn(before + lines + after, name, field)
  {
    hide SetsVariable, Sets;
    var i :| 0 <= i < |lines| && SetsVariable(lines[i]) && Sets(lines[i], name, field);
    assert (before + lines + after)[|before| + i] == lines[i];
  }

  lemma SaveOneSets(name: string, raw: string)
    ensures SavedIn(SaveOne(name, raw, "    "), name, ParseOptionalField(raw).0)
  {
    hide SetsVariable, Sets, SetLine, IfField;
    var (field, optional) := ParseOptionalField(raw);
    var indent := if optional then "    " + "    " else "    ";
    SetLineSets(indent, name, field);
    var lines := SaveOne(name, raw, "    ");
    assert lines[if optional then 1 else 0] == indent + SetLine(name, field);
  }

  lemma {:induction false} SaveLinesSet(save: map<string, string>, order: seq<string>, name: string)
    requires (forall v | v in order :: v in save) && name in order
    ensures SavedIn(SaveLines(save, order, "    "), name, ParseOptionalField(save[name]).0)
    decreases |order|
  {
    hide SavedIn, SaveOne, ParseOptionalField;
    var v := order[|order| - 1];
    var field := ParseOptionalField(save[name]).0;
    var before, last := SaveLines(save, order[..|order| - 1], "    "), SaveOne(v, save[v], "    ");
    if v == name {
      SaveOneSets(name, save[name]);
      SavedInLarger(before, last, [], name, field);
      assert before + last + [] == SaveLines(save, order, "    ");
    } else {
      SaveLinesSet(save, order[..|order| - 1], name);
      SavedInLarger([], before, last, name, field);
      assert [] + before + last == SaveLines(save, order, "    ");
    }
  }

  /** Every variable is set to its field when the response has the first accepted status. */
  lemma EveryVariableIsSaved(rc: RequestConfig, order: seq<string>, name: string)
    requires rc.accept.Some? && rc.accept.value != [] && rc.save.Some?
    requires IsOrder(order, rc.save.value.Keys) && name in rc.save.value
    ensures
      SavedIn(Executed(Script(rc, order).value, rc.accept.value[0]), name, ParseOptionalField(rc.save.value[name]).0)
  {
    hide SavedIn, SaveLines, ParseOptionalField, Script, Executed, TestLines, JSON_LINE;
    var primary := rc.accept.value[0];
    OneBranchPerStatus(rc, order, primary);
    SaveLinesSet(rc.save.value, order, name);
    var saves, test := SaveLines(rc.save.value, order, "    "), TestLines("    ", rc.name + " - success", [], primary);
    SavedInLarger([JSON_LINE], saves, test, name, ParseOptionalField(rc.save.value[name]).0);
  }

  /** A response sets variables exactly if it has the first accepted status and there is something to save. */
  lemma SavesOnlyForTheFirst(rc: RequestConfig, order: seq<string>, code: nat)
    requires rc.accept.Some? && rc.accept.value != []
    requires rc.save.Some? ==> IsOrder(order, rc.save.value.Keys)
    ensures
      NoneSets(Executed(Script(rc, order).value, code)) <==>
      !(code == rc.accept.value[0] && rc.save.Some? && rc.save.value != map[])
  {
    hide SetsVariable, Script, Executed, TestLines, JSON_LINE, ParseOptionalField;
    OneBranchPerStatus(rc, order, code);
    TestSetsNothing(rc.name + " - already exists (OK)", code);
    TestSetsNothing(rc.name + " - success", code);
    JsonLineSetsNothing();
    if rc.save.Some? && rc.save.value == map[] {
      assert |order| > 0 ==> order[0] in order;
    } else if rc.save.Some? {
      var name :| name in rc.save.value;
      if code == rc.accept.value[0] {
        EveryVariableIsSaved(rc, order, name);
      }
    }
  }

  // ---------------------------------------------------------------- lines as they are spelt

  /** The line opens a test with this title. */
  predicate Announces(line: string, title: string) {
    Trimmed(line) == "pm.test('" + title + "', function () {"
  }

  lemma TestAnnounces(indent: string, title: string, inner: seq<string>, status: nat)
    requires forall i | 0 <= i < |indent| :: indent[i] == ' '
    ensures
      var lines := TestLines(indent, title, inner, status);
      |lines| == |inner| + 3 && Announces(lines[0], title) && Checks(lines[1], status) && lines[2..|lines| - 1] == inner
      && Trimmed(lines[|lines| - 1]) == "});"
  {
    var call := "pm.test('" + title + "', function () {";
    TestLineSpelt(indent, title);
    CheckLineChecks(indent, status);
    TrimmedAfterSpaces(|indent|, indent, call);
    TrimmedAfterSpaces(|indent|, indent, "});");
    hide Trimmed, Checks, HAVE_STATUS, IntToString;
    assert TestLines(indent, title, inner, status)[0] == indent + call;
  }

  lemma TestLineSpelt(indent: string, title: string)
    ensures
      indent + "pm.test(" + ("'" + title + "'") + ", function () {" == indent + ("pm.test('" + title + "', function () {")
  {
    assert "pm.test('" == "pm.test(" + "'" && "', function () {" == "'" + ", function () {";
  }

  /** A required field is set at once, an optional one if the response has it. */
  lemma SaveOneSpelt(name: string, raw: string, indent: string)
    ensures
      var optional := raw != "" && raw[|raw| - 1] == '?';
      var field := if optional then raw[..|raw| - 1] else raw;
      var set_ := "pm.collectionVariables.set('" + name + "', json." + field + ");";
      SaveOne(name, raw, indent) ==
      if optional then [indent + ("if (json." + field + ") {"), indent + "    " + set_, indent + "}"] else [indent + set_]
  {
    var (field, optional) := ParseOptionalField(raw);
    SetLineSpelt(name, field);
    hide SetLine;
    assert "if (json." == "if " + "(" + "json." && ") {" == ")" + " {";
    assert IfField(indent, field) == indent + ("if (json." + field + ") {");
  }

  lemma HeadersSpelt(status: nat)
    ensures IfLine(status) == "if (pm.response.code === " + IntToString(status) + ") {"
    ensures ElseIfLine(status) == "} else if (pm.response.code === " + IntToString(status) + ") {"
  {
    IfLineSpelt(status);
    hide IntToString, IfLine;
    assert "} else if (pm.response.code === " == "} else " + "if (pm.response.code === ";
  }

  lemma IfLineSpelt(status: nat)
    ensures IfLine(status) == "if (pm.response.code === " + IntToString(status) + ") {"
  {
    hide IntToString;
    assert "if (pm.response.code === " == "if " + "(" + "pm.response.code === " && ") {" == ")" + " {";
  }

  lemma JsonLineSpelt()
    ensures JSON_LINE == "    var json = pm.response.json();"
  {
    assert "    var json = pm.response.json();" == READ_JSON + "()" + ";";
  }

  /** Which test runs for an accepted status is shown by its title. */
  lemma BranchIsTitled(rc: RequestConfig, order: seq<string>, code: nat)
    requires rc.accept.Some? && code in rc.accept.value
    requires rc.save.Some? ==> forall v | v in order :: v in rc.save.value
    ensures
      var lines := Executed(Script(rc, order).value, code);
      var suffix := if code == rc.accept.value[0] then " - success" else " - already exists (OK)";
      exists i :: 0 <= i < |lines| && Announces(lines[i], rc.name + suffix)
  {
    hide MoreBranches, IfLine, Executed, Checks, Announces, TestLines, SavePart;
    OneBranchPerStatus(rc, order, code);
    var lines := Executed(Script(rc, order).value, code);
    if code == rc.accept.value[0] {
      TestAnnounces("    ", rc.name + " - success", [], code);
      assert lines[|SavePart(rc.save, order)|] == TestLines("    ", rc.name + " - success", [], code)[0];
    } else {
      TestAnnounces("    ", rc.name + " - already exists (OK)", [], code);
      assert lines[0] == TestLines("    ", rc.name + " - already exists (OK)", [], code)[0];
    }
  }

  /** The branch that saves reads the response first. */
  lemma ReadsBeforeSaving(rc: RequestConfig, order: seq<string>)
    requires rc.accept.Some? && rc.accept.value != [] && rc.save.Some?
    requires forall v | v in order :: v in rc.save.value
    ensures
      var lines := Executed(Script(rc, order).value, rc.accept.value[0]);
      |lines| > 0 && lines[0] == "    var json = pm.response.json();"
  {
    hide MoreBranches, IfLine, Executed, TestLines, SaveLines, JSON_LINE;
    OneBranchPerStatus(rc, order, rc.accept.value[0]);
    JsonLineSpelt();
  }

  // ---------------------------------------------------------------- scripts without a list of statuses

  /** With variables to save: one test, for the expected status or 200, in which every variable is set to its field. */
  lemma SavingScript(rc: RequestConfig, order: seq<string>)
    requires rc.accept.None? && rc.save.Some? && IsOrder(order, rc.save.value.Keys)
    ensures
      var script := Script(rc, order);
      && script.Some? && |script.value| > 2
      && Announces(script.value[0], rc.name + " - success")
      && Checks(script.value[1], if rc.expected.Some? then rc.expected.value else 200)
      && script.value[2] == "    var json = pm.response.json();"
      && forall v | v in rc.save.value :: SavedIn(script.value, v, ParseOptionalField(rc.save.value[v]).0)
  {
    hide Announces, Checks, SavedIn, SaveLines, ParseOptionalField, JSON_LINE, TestLines;
    var status := if rc.expected.Some? then rc.expected.value else 200;
    var title, inner := rc.name + " - success", SavePart(rc.save, order);
    var lines := TestLines("", title, inner, status);
    TestAnnounces("", title, inner, status);
    JsonLineSpelt();
    assert inner[0] == JSON_LINE && lines[2] == lines[2..|lines| - 1][0];
    forall v | v in rc.save.value ensures SavedIn(lines, v, ParseOptionalField(rc.save.value[v]).0) {
      var saves := SaveLines(rc.save.value, order, "    ");
      SaveLinesSet(rc.save.value, order, v);
      SavedInLarger([JSON_LINE], saves, [], v, ParseOptionalField(rc.save.value[v]).0);
      assert [JSON_LINE] + saves + [] == inner;
      SavedInLarger(lines[..2], inner, lines[|lines| - 1..], v, ParseOptionalField(rc.save.value[v]).0);
      assert lines == lines[..2] + inner + lines[|lines| - 1..];
    }
  }

  /** With an expected status alone: one test for it that saves nothing. With neither: no script. */
  lemma PlainScript(rc: RequestConfig)
    requires rc.accept.None? && rc.save.None?
    ensures
      var script := Script(rc, []);
      if rc.expected.None? then script == Some([])
      else
        && script.Some? && |script.value| == 3 && NoneSets(script.value)
        && Announces(script.value[0], rc.name) && Checks(script.value[1], rc.expected.value)
  {
    if rc.expected.Some? {
      TestAnnounces("", rc.name, [], rc.expected.value);
      hide TestLines;
      var lines := TestLines("", rc.name, [], rc.expected.value);
      TestNoneSets(lines, rc.name, rc.expected.value);
    }
  }

  lemma TestNoneSets(lines: seq<string>, title: string, status: nat)
    requires |lines| == 3 && Announces(lines[0], title) && Checks(lines[1], status) && Trimmed(lines[2]) == "});"
    ensures NoneSets(lines)
  {
    hide Trimmed, IntToString;
    assert SET_CALL[3] == 'c' && SET_CALL[0] == 'p';
    assert Trimmed(lines[0])[3] == 't' && Trimmed(lines[1])[3] == 'r' && Trimmed(lines[2])[0] == '}';
  }
}
