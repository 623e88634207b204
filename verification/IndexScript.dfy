/** The CREATE INDEX script printed for a missing-index suggestion, and a reader that inverts it. */
module IndexScript {
  import opened Wrappers
  import opened PlanIr
  import Text

  const NO_KEYS := "<no key columns reported>"

  const REVIEW_NOTE :=
    "-- Review before running: table name is not schema-qualified (not tracked in the IR), "
    + "verify write-cost tradeoff, and check for an existing similar index."

  function Bracketed(name: string): string {
    "[" + name + "]"
  }

  /** [a], [b], [c] */
  function BracketedList(names: seq<string>): string {
    if names == [] then ""
    else if |names| == 1 then Bracketed(names[0])
    else Bracketed(names[0]) + ", " + BracketedList(names[1..])
  }

  function KeyColumns(mi: MissingIndex): seq<string> {
    mi.equality + mi.inequality
  }

  function IndexName(mi: MissingIndex): string {
    if KeyColumns(mi) != [] then "IX_" + Text.Join("_", [mi.table] + KeyColumns(mi)) else "IX_" + mi.table
  }

  function KeyClause(keys: seq<string>): string {
    if keys == [] then NO_KEYS else BracketedList(keys)
  }

  function HeadLine(mi: MissingIndex): string {
    "CREATE NONCLUSTERED INDEX " + Bracketed(IndexName(mi))
  }

  function OnLine(mi: MissingIndex): string {
    "    ON " + (Bracketed(mi.table) + (" (" + (KeyClause(KeyColumns(mi)) + ")")))
  }

  function IncludeLine(names: seq<string>): string {
    "    INCLUDE (" + (BracketedList(names) + ")")
  }

  /** The whole script text: the statement, a semicolon, and the note on its own line. */
  function ScriptOf(mi: MissingIndex): string {
    var ending := ";" + ("\n" + REVIEW_NOTE);
    HeadLine(mi) + ("\n" + (OnLine(mi) +
      if mi.included == [] then ending else "\n" + (IncludeLine(mi.included) + ending)))
  }

  /** Builds the script line by line; the semicolon goes on whichever line is last before the note. */
  method MissingIndexScript(mi: MissingIndex) returns (script: string)
    ensures script == ScriptOf(mi)
  {
    hide HeadLine, OnLine, IncludeLine, REVIEW_NOTE;
    var lines := [HeadLine(mi), OnLine(mi)];
    if mi.included != [] {
      lines := lines + [IncludeLine(mi.included)];
    }
    lines := lines[|lines| - 1 := lines[|lines| - 1] + ";"];
    lines := lines + [REVIEW_NOTE];
    script := Text.Join("\n", lines);
    if mi.included == [] {
      assert lines == [HeadLine(mi), OnLine(mi) + ";", REVIEW_NOTE];
      JoinThree(HeadLine(mi), OnLine(mi), REVIEW_NOTE);
    } else {
      assert lines == [HeadLine(mi), OnLine(mi), IncludeLine(mi.included) + ";", REVIEW_NOTE];
      JoinFour(HeadLine(mi), OnLine(mi), IncludeLine(mi.included), REVIEW_NOTE);
    }
  }

  lemma JoinThree(a: string, b: string, c: string)
    ensures Text.Join("\n", [a, b + ";", c]) == a + ("\n" + (b + (";" + ("\n" + c))))
  {
    assert [a, b + ";", c][1..] == [b + ";", c];
    assert [b + ";", c][1..] == [c];
    assert Text.Join("\n", [b + ";", c]) == ((b + ";") + "\n") + c == b + (";" + ("\n" + c));
  }

  lemma JoinFour(a: string, b: string, c: string, d: string)
    ensures Text.Join("\n", [a, b, c + ";", d]) == a + ("\n" + (b + ("\n" + (c + (";" + ("\n" + d))))))
  {
    assert [a, b, c + ";", d][1..] == [b, c + ";", d];
    JoinThree(b, c, d);
  }

  // ---------- The script in full ----------

  /** _a_b_c */
  function NameTail(names: seq<string>): string {
    if names == [] then "" else "_" + names[0] + NameTail(names[1..])
  }

  /** [a], [b], [c] after a first one. */
  function MoreNames(names: seq<string>): string {
    if names == [] then "" else ", [" + names[0] + "]" + MoreNames(names[1..])
  }

  function ListText(names: seq<string>): string {
    if names == [] then "" else "[" + names[0] + "]" + MoreNames(names[1..])
  }

  /** The script for a table, its key columns and its included columns. */
  function ScriptText(table: string, keys: seq<string>, included: seq<string>): string {
    var ending := ";" + ("\n" +
      ("-- Review before running: table name is not schema-qualified (not tracked in the IR), "
       + "verify write-cost tradeoff, and check for an existing similar index."));
    ("CREATE NONCLUSTERED INDEX [IX_" + table + NameTail(keys) + "]") + ("\n"
    + (("    ON [" + table + "] (" + (if keys == [] then "<no key columns reported>" else ListText(keys)) + ")")
    + (if included == [] then ending else "\n" + (("    INCLUDE (" + ListText(included) + ")") + ending))))
  }

  lemma {:induction false} JoinIsTail(table: string, names: seq<string>)
    ensures Text.Join("_", [table] + names) == table + NameTail(names)
    decreases |names|
  {
    if names == [] {
      assert [table] + names == [table];
      assert table + "" == table;
    } else {
      assert ([table] + names)[1..] == names == [names[0]] + names[1..];
      JoinIsTail(names[0], names[1..]);
      assert Text.Join("_", [table] + names) == table + "_" + Text.Join("_", names);
      assert table + "_" + (names[0] + NameTail(names[1..])) == table + ("_" + names[0] + NameTail(names[1..]));
    }
  }

  lemma {:induction false} ListIsText(names: seq<string>)
    ensures BracketedList(names) == ListText(names)
    decreases |names|
  {
    if |names| > 1 {
      ListIsText(names[1..]);
      var first, rest := "[" + names[0] + "]", MoreNames(names[2..]);
      assert names[1..][1..] == names[2..] && names[1..][0] == names[1];
      assert first + ", " + ("[" + names[1] + "]" + rest) == first + (", [" + names[1] + "]" + rest);
    } else if |names| == 1 {
      assert MoreNames(names[1..]) == "";
    }
  }

  lemma IndexNameText(mi: MissingIndex)
    ensures IndexName(mi) == "IX_" + mi.table + NameTail(mi.equality + mi.inequality)
  {
    var keys := mi.equality + mi.inequality;
    JoinIsTail(mi.table, keys);
    if keys == [] {
      assert "IX_" + mi.table + "" == "IX_" + mi.table;
    } else {
      assert "IX_" + (mi.table + NameTail(keys)) == "IX_" + mi.table + NameTail(keys);
    }
  }

  lemma HeadLineText(mi: MissingIndex)
    ensures HeadLine(mi)
         == "CREATE NONCLUSTERED INDEX [IX_" + mi.table + NameTail(mi.equality + mi.inequality) + "]"
  {
    hide IndexName, NameTail;
    IndexNameText(mi);
    var name := mi.table + NameTail(mi.equality + mi.inequality);
    assert "CREATE NONCLUSTERED INDEX [IX_" == "CREATE NONCLUSTERED INDEX " + "[" + "IX_";
    assert "IX_" + mi.table + NameTail(mi.equality + mi.inequality) == "IX_" + name;
    Regroup("CREATE NONCLUSTERED INDEX ", "[", "IX_" + name, "]");
    Regroup("CREATE NONCLUSTERED INDEX " + "[", "IX_", mi.table, NameTail(mi.equality + mi.inequality));
  }

  lemma Regroup(a: string, b: string, c: string, d: string)
    ensures a + (b + c + d) == (a + b) + c + d
    ensures (a + b) + c + d == a + (b + (c + d))
    ensures a + (b + (c + d)) == a + (b + c + d)
  {
  }

  lemma ClauseText(keys: seq<string>)
    ensures KeyClause(keys) == if keys == [] then "<no key columns reported>" else ListText(keys)
  {
    hide ListText, BracketedList;
    ListIsText(keys);
  }

  lemma OnLineText(mi: MissingIndex)
    ensures var keys := mi.equality + mi.inequality;
      OnLine(mi)
        == "    ON [" + mi.table + "] (" + (if keys == [] then "<no key columns reported>" else ListText(keys)) + ")"
  {
    hide ListText, KeyClause;
    var keys := mi.equality + mi.inequality;
    ClauseText(keys);
    var clause := KeyClause(keys);
    assert "    ON [" == "    ON " + "[" && "] (" == "]" + " (";
    Regroup("    ON ", "[", mi.table, "]");
    Regroup("    ON " + "[" + mi.table + "]", " (", clause, ")");
  }

  lemma IncludeLineText(names: seq<string>)
    ensures IncludeLine(names) == "    INCLUDE (" + ListText(names) + ")"
  {
    hide ListText, BracketedList;
    ListIsText(names);
  }

  /** The printed script, character by character. */
  lemma ScriptTextExactly(mi: MissingIndex)
    ensures ScriptOf(mi) == ScriptText(mi.table, mi.equality + mi.inequality, mi.included)
  {
    hide HeadLine, OnLine, IncludeLine, NameTail, ListText;
    HeadLineText(mi);
    OnLineText(mi);
    IncludeLineText(mi.included);
  }

  // ---------- Reading a script back ----------

  datatype IndexDefinition = IndexDefinition(name: string, table: string, keys: seq<string>, included: seq<string>)

  predicate PlainName(name: string) {
    ']' !in name
  }

  predicate PlainNames(names: seq<string>) {
    forall n :: n in names ==> PlainName(n)
  }

  function ReadName(s: string): (r: Option<(string, string)>)
    ensures r.Some? ==> PlainName(r.value.0) && |r.value.1| < |s|
  {
    var body :- Text.After("[", s);
    Text.UpTo(']', body)
  }

  function ReadNames(s: string): (r: Option<(seq<string>, string)>)
    ensures r.Some? ==> PlainNames(r.value.0)
    decreases |s|
  {
    var (name, rest) :- ReadName(s);
    match Text.After(", ", rest)
    case None => Some(([name], rest))
    case Some(more) =>
      var (names, end) :- ReadNames(more);
      Some(([name] + names, end))
  }

  function ReadKeys(s: string): (r: Option<(seq<string>, string)>)
    ensures r.Some? ==> PlainNames(r.value.0)
  {
    match Text.After(NO_KEYS, s)
    case Some(rest) => Some(([], rest))
    case None => ReadNames(s)
  }

  function ReadIncluded(s: string): (r: Option<(seq<string>, string)>)
    ensures r.Some? ==> PlainNames(r.value.0)
  {
    match Text.After("\n", s)
    case None => Some(([], s))
    case Some(line) =>
      var names :- Text.After("    INCLUDE (", line);
      var (included, rest) :- ReadNames(names);
      var end :- Text.After(")", rest);
      Some((included, end))
  }

  /** An index definition read from a script; None when the text has any other shape. */
  function ReadScript(s: string): (r: Option<IndexDefinition>)
    ensures r.Some? ==> PlainName(r.value.table) && PlainNames(r.value.keys) && PlainNames(r.value.included)
  {
    var afterCreate :- Text.After("CREATE NONCLUSTERED INDEX ", s);
    var (name, afterName) :- ReadName(afterCreate);
    var onLine :- Text.After("\n", afterName);
    var afterOn :- Text.After("    ON ", onLine);
    var (table, afterTable) :- ReadName(afterOn);
    var keyText :- Text.After(" (", afterTable);
    var (keys, afterKeys) :- ReadKeys(keyText);
    var afterList :- Text.After(")", afterKeys);
    var (included, ending) :- ReadIncluded(afterList);
    var note :- Text.After(";", ending);
    if note == "\n" + REVIEW_NOTE then Some(IndexDefinition(name, table, keys, included)) else None
  }

  lemma NameReadsBack(name: string, rest: string)
    requires PlainName(name)
    ensures ReadName(Bracketed(name) + rest) == Some((name, rest))
  {
    Text.UpToStops(']', name, rest);
    assert Bracketed(name) + rest == "[" + (name + ("]" + rest));
    Text.AfterPrefix("[", name + ("]" + rest));
  }

  lemma {:induction false} NamesReadBack(names: seq<string>, rest: string)
    requires names != [] && PlainNames(names)
    requires rest != "" && rest[0] != ','
    ensures ReadNames(BracketedList(names) + rest) == Some((names, rest))
    decreases |names|
  {
    hide ReadName, Bracketed;
    if |names| == 1 {
      NameReadsBack(names[0], rest);
      assert names == [names[0]];
      assert !(", " <= rest);
    } else {
      var more := BracketedList(names[1..]) + rest;
      NamesReadBack(names[1..], rest);
      assert BracketedList(names) + rest == Bracketed(names[0]) + (", " + more);
      NameReadsBack(names[0], ", " + more);
      Text.AfterPrefix(", ", more);
      assert names == [names[0]] + names[1..];
    }
  }

  lemma KeysReadBack(keys: seq<string>, rest: string)
    requires PlainNames(keys)
    requires rest != "" && rest[0] != ','
    ensures ReadKeys(KeyClause(keys) + rest) == Some((keys, rest))
  {
    if keys == [] {
      Text.AfterPrefix(NO_KEYS, rest);
    } else {
      NamesReadBack(keys, rest);
      assert (BracketedList(keys) + rest)[0] == '[' && NO_KEYS[0] == '<';
    }
  }

  lemma {:induction false} JoinPlain(names: seq<string>)
    requires PlainNames(names)
    ensures PlainName(Text.Join("_", names))
    decreases |names|
  {
    if |names| > 1 {
      JoinPlain(names[1..]);
      assert PlainName(names[0]) && PlainName("_");
    } else if |names| == 1 {
      assert names[0] in names;
    }
  }

  lemma IndexNamePlain(mi: MissingIndex)
    requires PlainName(mi.table) && PlainNames(KeyColumns(mi))
    ensures PlainName(IndexName(mi))
  {
    JoinPlain([mi.table] + KeyColumns(mi));
  }

  /** The included-columns part of a script, and everything after the key list. */
  function Ending(mi: MissingIndex): string {
    (if mi.included == [] then "" else "\n" + IncludeLine(mi.included)) + (";" + ("\n" + REVIEW_NOTE))
  }

  lemma IncludedReadsBack(mi: MissingIndex)
    requires PlainNames(mi.included)
    ensures ReadIncluded(Ending(mi)) == Some((mi.included, ";" + ("\n" + REVIEW_NOTE)))
  {
    hide REVIEW_NOTE;
    var tail := ";" + ("\n" + REVIEW_NOTE);
    if mi.included == [] {
      assert Ending(mi) == tail && tail[0] == ';';
      assert !("\n" <= tail);
    } else {
      var list := BracketedList(mi.included) + (")" + tail);
      assert Ending(mi) == "\n" + ("    INCLUDE (" + list);
      Text.AfterPrefix("\n", "    INCLUDE (" + list);
      Text.AfterPrefix("    INCLUDE (", list);
      NamesReadBack(mi.included, ")" + tail);
      Text.AfterPrefix(")", tail);
    }
  }

  lemma ScriptParts(mi: MissingIndex)
    ensures ScriptOf(mi) == "CREATE NONCLUSTERED INDEX " + (Bracketed(IndexName(mi)) + ("\n" + ("    ON " +
              (Bracketed(mi.table) + (" (" + (KeyClause(KeyColumns(mi)) + (")" + Ending(mi))))))))
  {
    hide IndexName, KeyClause, KeyColumns, IncludeLine, REVIEW_NOTE;
    var tail := if mi.included == [] then ";" + ("\n" + REVIEW_NOTE)
                else "\n" + (IncludeLine(mi.included) + (";" + ("\n" + REVIEW_NOTE)));
    assert tail == Ending(mi);
    var keys := KeyClause(KeyColumns(mi));
    assert OnLine(mi) + tail == "    ON " + (Bracketed(mi.table) + (" (" + (keys + (")" + tail))));
  }

  /** The script determines the names of index, table and columns exactly when no table or column name holds a ']'. */
  lemma ScriptReadsBackExactly(mi: MissingIndex)
    ensures var keys := mi.equality + mi.inequality;
      ReadScript(ScriptOf(mi))
        == Some(IndexDefinition("IX_" + mi.table + NameTail(keys), mi.table, keys, mi.included))
      <==> PlainName(mi.table) && PlainNames(keys) && PlainNames(mi.included)
  {
    hide ReadScript, ScriptOf, IndexName, NameTail;
    IndexNameText(mi);
    if PlainName(mi.table) && PlainNames(KeyColumns(mi)) && PlainNames(mi.included) {
      PlainScriptReadsBack(mi);
    }
  }

  lemma PlainScriptReadsBack(mi: MissingIndex)
    requires PlainName(mi.table) && PlainNames(KeyColumns(mi)) && PlainNames(mi.included)
    ensures ReadScript(ScriptOf(mi)) == Some(IndexDefinition(IndexName(mi), mi.table, KeyColumns(mi), mi.included))
  {
    hide IndexName, KeyClause, KeyColumns, REVIEW_NOTE, Bracketed, ReadName, ReadNames, ReadKeys, ReadIncluded, Ending;
    ScriptParts(mi);
    var afterKeys := ")" + Ending(mi);
    var onward := " (" + (KeyClause(KeyColumns(mi)) + afterKeys);
    var line := "    ON " + (Bracketed(mi.table) + onward);
    Text.AfterPrefix("CREATE NONCLUSTERED INDEX ", Bracketed(IndexName(mi)) + ("\n" + line));
    IndexNamePlain(mi);
    NameReadsBack(IndexName(mi), "\n" + line);
    Text.AfterPrefix("\n", line);
    Text.AfterPrefix("    ON ", Bracketed(mi.table) + onward);
    NameReadsBack(mi.table, onward);
    Text.AfterPrefix(" (", KeyClause(KeyColumns(mi)) + afterKeys);
    KeysReadBack(KeyColumns(mi), afterKeys);
    Text.AfterPrefix(")", Ending(mi));
    IncludedReadsBack(mi);
    Text.AfterPrefix(";", "\n" + REVIEW_NOTE);
  }
}
