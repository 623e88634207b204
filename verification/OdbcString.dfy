/** ODBC connection strings: how they are written, and a brace-aware reader that inverts the writing. */
module OdbcString {
  import opened Wrappers
  import Text

  /** value.replace("}", "}}") */
  function Doubled(value: string): string {
    if value == "" then ""
    else (if value[0] == '}' then "}}" else [value[0]]) + Doubled(value[1..])
  }

  function OdbcEscape(value: string): string {
    "{" + (Doubled(value) + "}")
  }

  function TrustValue(trust: bool): string {
    if trust then "yes" else "no"
  }

  /** key=text;rest */
  function Assignment(key: string, text: string, rest: string): string {
    key + ("=" + (text + (";" + rest)))
  }

  function Credentials(user: string, password: string, trust: bool): string {
    Assignment("UID", OdbcEscape(user), Assignment("PWD", OdbcEscape(password),
      Assignment("TrustServerCertificate", TrustValue(trust), "")))
  }

  function ConnectionString(
    server: string, database: string, user: string, password: string, driver: string, trust: bool): string
  {
    Assignment("DRIVER", "{" + (driver + "}"), Assignment("SERVER", server, Assignment("DATABASE", database,
      Credentials(user, password, trust))))
  }

  // ---------- Reading a connection string ----------

  /** The value after an opening brace, a doubled closing brace standing for one. */
  function ReadBraced(s: string): (r: Option<(string, string)>)
    ensures r.Some? ==> |r.value.1| < |s|
  {
    if s == "" then None
    else if s[0] != '}' then
      var (value, rest) :- ReadBraced(s[1..]);
      Some(([s[0]] + value, rest))
    else if |s| > 1 && s[1] == '}' then
      var (value, rest) :- ReadBraced(s[2..]);
      Some((['}'] + value, rest))
    else Some(("", s[1..]))
  }

  /** A bare value runs up to the next semicolon, or to the end. */
  function ReadPlain(s: string): (r: (string, string))
    ensures |r.1| <= |s|
  {
    if s == "" || s[0] == ';' then ("", s)
    else
      var (value, rest) := ReadPlain(s[1..]);
      ([s[0]] + value, rest)
  }

  function ReadValue(s: string): (r: Option<(string, string)>)
    ensures r.Some? ==> |r.value.1| <= |s|
  {
    if s != "" && s[0] == '{' then ReadBraced(s[1..]) else Some(ReadPlain(s))
  }

  /** The key/value pairs of a connection string; None when it is malformed. */
  function ReadPairs(s: string): Option<seq<(string, string)>>
    decreases |s|
  {
    if s == "" then Some([])
    else
      var (key, afterKey) :- Text.UpTo('=', s);
      var (value, afterValue) :- ReadValue(afterKey);
      if afterValue == "" || afterValue[0] != ';' then None
      else
        var others :- ReadPairs(afterValue[1..]);
        Some([(key, value)] + others)
  }

  // ---------- Escaped values ----------

  lemma {:induction false} DoubledReadsBack(value: string, rest: string)
    requires rest == "" || rest[0] != '}'
    ensures ReadBraced(Doubled(value) + ("}" + rest)) == Some((value, rest))
  {
    hide Doubled, ReadBraced;
    if value == "" {
      NothingReadsBack(rest);
    } else {
      var tail := "}" + rest;
      DoubledReadsBack(value[1..], rest);
      DoubledStep(value, tail);
      ReadBracedStep(value[0], Doubled(value[1..]) + tail);
      assert value == [value[0]] + value[1..];
    }
  }

  lemma NothingReadsBack(rest: string)
    requires rest == "" || rest[0] != '}'
    ensures ReadBraced(Doubled("") + ("}" + rest)) == Some(("", rest))
  {
    assert Doubled("") + ("}" + rest) == "}" + rest;
    assert ("}" + rest)[1..] == rest;
  }

  lemma DoubledStep(value: string, tail: string)
    requires value != ""
    ensures Doubled(value) + tail == (if value[0] == '}' then "}}" else [value[0]]) + (Doubled(value[1..]) + tail)
  {
  }

  lemma ReadBracedStep(c: char, tail: string)
    requires ReadBraced(tail).Some?
    ensures ReadBraced((if c == '}' then "}}" else [c]) + tail)
         == Some(([c] + ReadBraced(tail).value.0, ReadBraced(tail).value.1))
  {
    if c == '}' {
      assert ("}}" + tail)[2..] == tail;
    } else {
      assert ([c] + tail)[1..] == tail;
    }
  }

  /** Whatever value and rest are read, the text was the doubled value, a brace, and the rest. */
  lemma {:induction false} BracedReadingSound(s: string)
    requires ReadBraced(s).Some?
    ensures s == Doubled(ReadBraced(s).value.0) + ("}" + ReadBraced(s).value.1)
  {
    var (value, rest) := ReadBraced(s).value;
    if s[0] != '}' {
      BracedReadingSound(s[1..]);
      assert value[1..] == ReadBraced(s[1..]).value.0;
      assert s == [s[0]] + s[1..];
    } else if |s| > 1 && s[1] == '}' {
      BracedReadingSound(s[2..]);
      assert value[1..] == ReadBraced(s[2..]).value.0;
      assert s == "}}" + s[2..];
    } else {
      assert s == "}" + s[1..];
    }
  }

  lemma EscapedReadsBack(value: string, rest: string)
    ensures ReadValue(OdbcEscape(value) + (";" + rest)) == Some((value, ";" + rest))
  {
    var s := OdbcEscape(value) + (";" + rest);
    assert s[1..] == Doubled(value) + ("}" + (";" + rest));
    DoubledReadsBack(value, ";" + rest);
  }

  // ---------- Unescaped values ----------

  function Braces(n: nat): string {
    seq(n, _ => '}')
  }

  lemma PlainStep(value: string, x: string)
    requires value != "" && value[0] != '}'
    ensures Braces(0) + (Doubled(value) + x) == [value[0]] + (Braces(0) + (Doubled(value[1..]) + x))
  {
    assert Doubled(value) == [value[0]] + Doubled(value[1..]);
  }

  lemma BraceStep(n: nat, value: string, x: string)
    requires value != "" && value[0] == '}'
    ensures Braces(n) + (Doubled(value) + x) == ['}'] + (Braces(n + 1) + (Doubled(value[1..]) + x))
  {
    assert Doubled(value) == "}}" + Doubled(value[1..]);
    assert Braces(n) + "}}" == ['}'] + Braces(n + 1);
  }

  lemma SameRest(c: char, a: string, b: string)
    requires [c] + a == [c] + b
    ensures a == b
  {
    assert ([c] + a)[1..] == a && ([c] + b)[1..] == b;
  }

  lemma NoRoomAtEnd(n: nat, rest: string, r: string)
    ensures Braces(n) + ("" + ("}" + r)) == "" + ("}" + (";" + rest)) ==> n == 0
  {
    var left, right := Braces(n) + ("" + ("}" + r)), "" + ("}" + (";" + rest));
    assert right[1] == ';';
    if n > 0 {
      assert left[1] == '}';
    }
  }

  /** A value written with single braces leaves no room for their doubled form. */
  lemma {:induction false} NoRoomToDouble(n: nat, value: string, rest: string, r: string)
    requires Braces(n) + (Doubled(value) + ("}" + r)) == value + ("}" + (";" + rest))
    ensures n == 0 && '}' !in value
    decreases |value|
  {
    var ending := "}" + (";" + rest);
    if value == "" {
      NoRoomAtEnd(n, rest, r);
    } else {
      var c, tail := value[0], value[1..];
      assert value == [c] + tail;
      assert value + ending == [c] + (tail + ending);
      if c != '}' {
        assert n == 0 by {
          assert (Braces(n) + (Doubled(value) + ("}" + r)))[0] == c;
        }
        PlainStep(value, "}" + r);
        SameRest(c, Braces(0) + (Doubled(tail) + ("}" + r)), tail + ending);
        NoRoomToDouble(0, tail, rest, r);
      } else {
        BraceStep(n, value, "}" + r);
        SameRest(c, Braces(n + 1) + (Doubled(tail) + ("}" + r)), tail + ending);
        NoRoomToDouble(n + 1, tail, rest, r);
      }
    }
  }

  /** A braced value is read as written exactly when it has no closing brace. */
  lemma BracedExactly(value: string, rest: string)
    ensures var r := ReadValue(("{" + (value + "}")) + (";" + rest));
      (r.Some? && r.value.0 == value <==> '}' !in value)
      && ('}' !in value ==> r == Some((value, ";" + rest)))
  {
    var s := ("{" + (value + "}")) + (";" + rest);
    var inner := value + ("}" + (";" + rest));
    assert s[1..] == inner;
    if '}' !in value {
      DoubledIsPlain(value);
      DoubledReadsBack(value, ";" + rest);
    }
    var r := ReadBraced(inner);
    if r.Some? && r.value.0 == value {
      BracedReadingSound(inner);
      assert Braces(0) + (Doubled(value) + ("}" + r.value.1)) == inner;
      NoRoomToDouble(0, value, rest, r.value.1);
    }
  }

  lemma {:induction false} DoubledIsPlain(value: string)
    requires '}' !in value
    ensures Doubled(value) == value
  {
    if value != "" {
      DoubledIsPlain(value[1..]);
      assert value == [value[0]] + value[1..];
    }
  }

  predicate PlainValue(value: string) {
    ';' !in value && (value == "" || value[0] != '{')
  }

  lemma {:induction false} PlainReadsBack(value: string, rest: string)
    requires ';' !in value
    ensures ReadPlain(value + (";" + rest)) == (value, ";" + rest)
  {
    var s := value + (";" + rest);
    if value == "" {
      assert s == ";" + rest;
    } else {
      assert s[1..] == value[1..] + (";" + rest);
      PlainReadsBack(value[1..], rest);
      assert value == [value[0]] + value[1..];
    }
  }

  lemma {:induction false} PlainHasNoSemicolon(s: string)
    ensures ';' !in ReadPlain(s).0
  {
    if s != "" && s[0] != ';' {
      PlainHasNoSemicolon(s[1..]);
    }
  }

  /** Text cannot equal itself shifted by one place up to its closing semicolon. */
  lemma {:induction false} NoShift(c: char, value: string, rest: string, r: string)
    requires c != '}' && c != ';'
    ensures [c] + (Doubled(value) + ("}" + r)) != value + (";" + rest)
  {
    var left, right := [c] + (Doubled(value) + ("}" + r)), value + (";" + rest);
    assert left[0] == c;
    if value == "" {
      assert right[0] == ';';
    } else if value[0] == c {
      NoShift(c, value[1..], rest, r);
      assert Doubled(value) == [c] + Doubled(value[1..]);
      assert left[1..] == [c] + (Doubled(value[1..]) + ("}" + r));
      assert right[1..] == value[1..] + (";" + rest);
    } else {
      assert right[0] == value[0];
    }
  }

  /** A bare value is read as written exactly when it has no semicolon and does not open with a brace. */
  lemma PlainExactly(value: string, rest: string)
    ensures var r := ReadValue(value + (";" + rest));
      (r.Some? && r.value.0 == value <==> PlainValue(value))
      && (PlainValue(value) ==> r == Some((value, ";" + rest)))
  {
    var s := value + (";" + rest);
    if PlainValue(value) {
      PlainReadsBack(value, rest);
    }
    if value != "" && value[0] == '{' {
      var inner := s[1..];
      assert inner == value[1..] + (";" + rest);
      var r := ReadBraced(inner);
      if r.Some? && r.value.0 == value {
        BracedReadingSound(inner);
        assert Doubled(value) == ['{'] + Doubled(value[1..]);
        assert inner == ['{'] + (Doubled(value[1..]) + ("}" + r.value.1));
        NoShift('{', value[1..], rest, r.value.1);
      }
    } else {
      PlainHasNoSemicolon(s);
    }
  }

  // ---------- Whole strings ----------

  /** Reading one assignment: its value must be readable, and then the rest must be. */
  lemma AssignmentReads(key: string, text: string, rest: string)
    requires '=' !in key
    ensures var v := ReadValue(text + (";" + rest)); var all := ReadPairs(Assignment(key, text, rest));
      (all.Some? ==> v.Some? && all.value != [] && all.value[0] == (key, v.value.0))
      && (v.Some? && v.value.1 == ";" + rest ==>
            all == match ReadPairs(rest) case None => None case Some(ps) => Some([(key, v.value.0)] + ps))
  {
    hide ReadValue;
    Text.UpToStops('=', key, text + (";" + rest));
    assert Assignment(key, text, rest) == key + (['='] + (text + (";" + rest)));
    assert (";" + rest)[1..] == rest;
  }

  function Expected(server: string, database: string, user: string, password: string, driver: string, trust: bool)
    : seq<(string, string)>
  {
    [("DRIVER", driver)] + ([("SERVER", server)] + ([("DATABASE", database)]
    + ([("UID", user)] + ([("PWD", password)] + ([("TrustServerCertificate", if trust then "yes" else "no")] + [])))))
  }

  lemma CredentialsReadBack(user: string, password: string, trust: bool)
    ensures ReadPairs(Credentials(user, password, trust))
         == Some([("UID", user)] + ([("PWD", password)] + ([("TrustServerCertificate", TrustValue(trust))] + [])))
  {
    hide ReadValue, OdbcEscape, ReadPairs;
    var trusting := Assignment("TrustServerCertificate", TrustValue(trust), "");
    PlainExactly(TrustValue(trust), "");
    AssignmentReads("TrustServerCertificate", TrustValue(trust), "");
    NoPairs();
    EscapedReadsBack(password, trusting);
    AssignmentReads("PWD", OdbcEscape(password), trusting);
    EscapedReadsBack(user, Assignment("PWD", OdbcEscape(password), trusting));
    AssignmentReads("UID", OdbcEscape(user), Assignment("PWD", OdbcEscape(password), trusting));
  }

  lemma NoPairs()
    ensures ReadPairs("") == Some([])
  {
  }

  /**
   * For every user and password, the six settings are read back exactly when
   * the driver has no closing brace and server and database are plain values.
   */
  lemma ConnectionStringReadsBackExactly(
    server: string, database: string, user: string, password: string, driver: string, trust: bool)
    ensures ReadPairs(ConnectionString(server, database, user, password, driver, trust))
              == Some(Expected(server, database, user, password, driver, trust))
       <==> '}' !in driver && PlainValue(server) && PlainValue(database)
  {
    hide ReadPairs, ReadValue, Credentials, Assignment, PlainValue;
    var login := Credentials(user, password, trust);
    var fromDatabase := Assignment("DATABASE", database, login);
    var fromServer := Assignment("SERVER", server, fromDatabase);
    CredentialsReadBack(user, password, trust);
    BracedExactly(driver, fromServer);
    AssignmentReads("DRIVER", "{" + (driver + "}"), fromServer);
    PlainExactly(server, fromDatabase);
    AssignmentReads("SERVER", server, fromDatabase);
    PlainExactly(database, login);
    AssignmentReads("DATABASE", database, login);
    var expected := Expected(server, database, user, password, driver, trust);
    assert expected[0] == ("DRIVER", driver) && expected[1..][0] == ("SERVER", server);
    assert expected[2..][0] == ("DATABASE", database);
    if '}' !in driver {
      assert expected == [("DRIVER", driver)] + expected[1..];
      if PlainValue(server) {
        assert expected[1..] == [("SERVER", server)] + expected[2..];
      }
    }
  }

  /** With everything else equal, different credentials give different connection strings, whatever else is in them. */
  lemma CredentialsAreDistinguished(
    server: string, database: string, driver: string, trust: bool,
    user: string, password: string, user': string, password': string)
    requires ConnectionString(server, database, user, password, driver, trust)
          == ConnectionString(server, database, user', password', driver, trust)
    ensures user == user' && password == password'
  {
    hide Credentials;
    var a, b := Credentials(user, password, trust), Credentials(user', password', trust);
    SameTail("DATABASE", database, a, b);
    SameTail("SERVER", server, Assignment("DATABASE", database, a), Assignment("DATABASE", database, b));
    SameTail("DRIVER", "{" + (driver + "}"),
      Assignment("SERVER", server, Assignment("DATABASE", database, a)),
      Assignment("SERVER", server, Assignment("DATABASE", database, b)));
    CredentialsReadBack(user, password, trust);
    CredentialsReadBack(user', password', trust);
    var p, q := ReadPairs(a).value, ReadPairs(b).value;
    assert p[0] == ("UID", user) && p[1] == ("PWD", password);
    assert q[0] == ("UID", user') && q[1] == ("PWD", password');
  }

  lemma SameTail(key: string, text: string, a: string, b: string)
    ensures Assignment(key, text, a) == Assignment(key, text, b) ==> a == b
  {
    assert Assignment(key, text, a)[|key| + 1 + |text| + 1..] == a;
    assert Assignment(key, text, b)[|key| + 1 + |text| + 1..] == b;
  }
}
