/**
 * The role option compiler and the SQL text of the role resource
 * (internal/provider/resource_postgresql_role.go): the seven
 * `*AsOptionString` helpers, `GetOptionsString`, and the statements the
 * handlers format with `fmt.Sprintf`.
 *
 * Names are interpolated as they are, with no quoting or escaping, exactly as
 * the source does. Each rendering has a reader beside it (`ParseFlag`,
 * `ParseOptionsString`, `StatementOptions`, `SelectRoleOid`) and the lemmas
 * prove that reading back what was rendered gives the attributes back, so
 * the rendered text loses and reorders nothing.
 */
module RoleSql {
  import opened Basics
  import Decimal

  /**
   * `RoleResourceModel`. A framework null reads as its Go zero value through
   * `ValueBool`/`ValueInt32`, which is how every handler reads these
   * attributes, so only `oid` keeps an explicit null (`None`).
   */
  datatype RoleModel = RoleModel(
    oid: Option<int64>,
    name: string,
    bypassRowLevelSecurity: bool,
    canLogin: bool,
    connectionLimit: int32,
    createRole: bool,
    inherit: bool,
    replication: bool,
    superuser: bool)

  /** The seven attributes that the option clause renders. */
  datatype RoleOptions = RoleOptions(
    bypassRowLevelSecurity: bool,
    canLogin: bool,
    connectionLimit: int32,
    createRole: bool,
    inherit: bool,
    replication: bool,
    superuser: bool)

  function OptionsOf(m: RoleModel): RoleOptions {
    RoleOptions(m.bypassRowLevelSecurity, m.canLogin, m.connectionLimit,
                m.createRole, m.inherit, m.replication, m.superuser)
  }

  // ---------------------------------------------------------------------
  // Joining and splitting on a separator (Go's strings.Join and its reader)
  // ---------------------------------------------------------------------

  /** `strings.Join(parts, string(sep))`. */
  function Join(parts: seq<string>, sep: char): string {
    if |parts| == 0 then ""
    else if |parts| == 1 then parts[0]
    else parts[0] + [sep] + Join(parts[1..], sep)
  }

  /** Splits at every occurrence of `sep`; the reader of `Join`. */
  function Split(s: string, sep: char): (r: seq<string>)
    ensures |r| > 0
  {
    if s == [] then [""]
    else
      var rest := Split(s[1..], sep);
      if s[0] == sep then [""] + rest else [[s[0]] + rest[0]] + rest[1..]
  }

  lemma {:induction false} SplitPrefix(w: string, rest: string, sep: char)
    requires sep !in w
    ensures Split(w + rest, sep) == [w + Split(rest, sep)[0]] + Split(rest, sep)[1..]
  {
    if w != [] {
      assert (w + rest)[1..] == w[1..] + rest;
      SplitPrefix(w[1..], rest, sep);
      assert [w[0]] + (w[1..] + Split(rest, sep)[0]) == w + Split(rest, sep)[0];
    } else {
      var r := Split(rest, sep);
      assert w + rest == rest;
      assert w + r[0] == r[0];
      assert [r[0]] + r[1..] == r;
    }
  }

  /** Splitting undoes joining when no part holds the separator. */
  lemma {:induction false} SplitJoin(parts: seq<string>, sep: char)
    requires |parts| > 0
    requires forall i :: 0 <= i < |parts| ==> sep !in parts[i]
    ensures Split(Join(parts, sep), sep) == parts
  {
    if |parts| > 1 {
      var rest := Join(parts[1..], sep);
      SplitJoin(parts[1..], sep);
      assert parts[0] + [sep] + rest == parts[0] + ([sep] + rest);
      SplitPrefix(parts[0], [sep] + rest, sep);
      assert ([sep] + rest)[1..] == rest;
      assert Split([sep] + rest, sep) == [""] + Split(rest, sep);
      assert parts[0] + "" == parts[0];
      assert parts == [parts[0]] + parts[1..];
    } else {
      SplitPrefix(parts[0], "", sep);
      assert parts[0] + "" == parts[0];
    }
  }

  // ---------------------------------------------------------------------
  // The option clause
  // ---------------------------------------------------------------------

  /** A boolean option: the keyword when set, `NO` and the keyword when not. */
  function FlagOption(flag: bool, keyword: string): string {
    if flag then keyword else "NO" + keyword
  }

  /** The reader of `FlagOption`. */
  function ParseFlag(word: string, keyword: string): (r: Option<bool>)
    ensures r.Some? ==> FlagOption(r.value, keyword) == word
  {
    if word == keyword then Some(true)
    else if word == "NO" + keyword then Some(false)
    else None
  }

  lemma ParseFlagOption(flag: bool, keyword: string)
    ensures ParseFlag(FlagOption(flag, keyword), keyword) == Some(flag)
  {
    if !flag {
      assert |"NO" + keyword| != |keyword|;
    }
  }

  function BypassRowLevelSecurityAsOptionString(m: RoleModel): string {
    FlagOption(m.bypassRowLevelSecurity, "BYPASSRLS")
  }

  function CanLoginAsOptionString(m: RoleModel): string {
    FlagOption(m.canLogin, "LOGIN")
  }

  /** `CONNECTION LIMIT %d` of the int32 limit. */
  function ConnectionLimitAsOptionString(m: RoleModel): string {
    "CONNECTION LIMIT " + Decimal.FormatInt(m.connectionLimit as int)
  }

  function CreateRoleAsOptionString(m: RoleModel): string {
    FlagOption(m.createRole, "CREATEROLE")
  }

  function InheritAsOptionString(m: RoleModel): string {
    FlagOption(m.inherit, "INHERIT")
  }

  function ReplicationAsOptionString(m: RoleModel): string {
    FlagOption(m.replication, "REPLICATION")
  }

  function SuperuserAsOptionString(m: RoleModel): string {
    FlagOption(m.superuser, "SUPERUSER")
  }

  /** The seven clauses, in the order `GetOptionsString` lists them. */
  function OptionClauses(m: RoleModel): seq<string> {
    [ BypassRowLevelSecurityAsOptionString(m),
      CanLoginAsOptionString(m),
      ConnectionLimitAsOptionString(m),
      CreateRoleAsOptionString(m),
      InheritAsOptionString(m),
      ReplicationAsOptionString(m),
      SuperuserAsOptionString(m) ]
  }

  /**
   * Each of the seven helpers reads back as the attribute it renders: the six
   * flags through their keyword, the limit as the number after
   * `CONNECTION LIMIT `.
   */
  lemma OptionHelpersReadBack(m: RoleModel)
    ensures ParseFlag(BypassRowLevelSecurityAsOptionString(m), "BYPASSRLS") == Some(m.bypassRowLevelSecurity)
    ensures ParseFlag(CanLoginAsOptionString(m), "LOGIN") == Some(m.canLogin)
    ensures var r := ConnectionLimitAsOptionString(m);
      |r| > 17 && r[..17] == "CONNECTION LIMIT " && Decimal.ParseInt(r[17..]) == Some(m.connectionLimit as int)
    ensures ParseFlag(CreateRoleAsOptionString(m), "CREATEROLE") == Some(m.createRole)
    ensures ParseFlag(InheritAsOptionString(m), "INHERIT") == Some(m.inherit)
    ensures ParseFlag(ReplicationAsOptionString(m), "REPLICATION") == Some(m.replication)
    ensures ParseFlag(SuperuserAsOptionString(m), "SUPERUSER") == Some(m.superuser)
  {
    ParseFlagOption(m.bypassRowLevelSecurity, "BYPASSRLS");
    ParseFlagOption(m.canLogin, "LOGIN");
    var n := Decimal.FormatInt(m.connectionLimit as int);
    Decimal.FormatIntRoundTrip(m.connectionLimit as int);
    assert ("CONNECTION LIMIT " + n)[17..] == n;
    ParseFlagOption(m.createRole, "CREATEROLE");
    ParseFlagOption(m.inherit, "INHERIT");
    ParseFlagOption(m.replication, "REPLICATION");
    ParseFlagOption(m.superuser, "SUPERUSER");
  }

  /** `GetOptionsString`: the seven clauses joined by single spaces. */
  function GetOptionsString(m: RoleModel): string {
    Join(OptionClauses(m), ' ')
  }

  /**
   * The words of the clause: the connection-limit clause is the three words
   * `CONNECTION`, `LIMIT` and the number.
   */
  function OptionWords(o: RoleOptions): seq<string> {
    [ FlagOption(o.bypassRowLevelSecurity, "BYPASSRLS"),
      FlagOption(o.canLogin, "LOGIN"),
      "CONNECTION", "LIMIT", Decimal.FormatInt(o.connectionLimit as int),
      FlagOption(o.createRole, "CREATEROLE"),
      FlagOption(o.inherit, "INHERIT"),
      FlagOption(o.replication, "REPLICATION"),
      FlagOption(o.superuser, "SUPERUSER") ]
  }

  /** The reader of the clause, following the token grammar of the clause. */
  function ParseOptionsString(s: string): (r: Option<RoleOptions>)
  {
    ParseOptionWords(Split(s, ' '))
  }

  /** The reader of the words of the clause. */
  function ParseOptionWords(w: seq<string>): Option<RoleOptions> {
    if |w| != 9 || w[2] != "CONNECTION" || w[3] != "LIMIT" then None
    else
      var bypass := ParseFlag(w[0], "BYPASSRLS");
      var login := ParseFlag(w[1], "LOGIN");
      var limit := Decimal.ParseInt(w[4]);
      var createRole := ParseFlag(w[5], "CREATEROLE");
      var inherit := ParseFlag(w[6], "INHERIT");
      var replication := ParseFlag(w[7], "REPLICATION");
      var superuser := ParseFlag(w[8], "SUPERUSER");
      if && bypass.Some? && login.Some? && limit.Some?
         && -0x8000_0000 <= limit.value < 0x8000_0000
         && createRole.Some? && inherit.Some? && replication.Some? && superuser.Some?
      then Some(RoleOptions(bypass.value, login.value, limit.value as int32, createRole.value,
                            inherit.value, replication.value, superuser.value))
      else None
  }

  lemma JoinCons(a: string, rest: seq<string>, sep: char)
    requires |rest| > 0
    ensures Join([a] + rest, sep) == a + [sep] + Join(rest, sep)
  {
    assert ([a] + rest)[1..] == rest;
  }

  lemma LimitWords(n: string, t: string)
    ensures "CONNECTION LIMIT " + n + " " + t == "CONNECTION" + " " + ("LIMIT" + " " + (n + " " + t))
  {
    assert "CONNECTION LIMIT " == "CONNECTION" + " " + "LIMIT" + " ";
  }

  /** A `CONNECTION LIMIT <n>` clause joins like its three words. */
  lemma JoinLimitWords(n: string, tail: seq<string>)
    requires |tail| > 0
    ensures Join(["CONNECTION LIMIT " + n] + tail, ' ')
         == Join(["CONNECTION"] + (["LIMIT"] + ([n] + tail)), ' ')
  {
    JoinCons("CONNECTION LIMIT " + n, tail, ' ');
    JoinCons(n, tail, ' ');
    JoinCons("LIMIT", [n] + tail, ' ');
    JoinCons("CONNECTION", ["LIMIT"] + ([n] + tail), ' ');
    LimitWords(n, Join(tail, ' '));
  }

  /** Lists that join alike still join alike behind the same two leading parts. */
  lemma JoinSamePrefix(c0: string, c1: string, x: seq<string>, y: seq<string>)
    requires |x| > 0 && |y| > 0 && Join(x, ' ') == Join(y, ' ')
    ensures Join([c0, c1] + x, ' ') == Join([c0, c1] + y, ' ')
  {
    JoinCons(c1, x, ' ');
    JoinCons(c1, y, ' ');
    JoinCons(c0, [c1] + x, ' ');
    JoinCons(c0, [c1] + y, ' ');
    assert [c0, c1] + x == [c0] + ([c1] + x);
    assert [c0, c1] + y == [c0] + ([c1] + y);
  }

  /** The seven clauses joined by spaces are the nine words joined by spaces. */
  lemma ClausesAreWords(m: RoleModel)
    ensures GetOptionsString(m) == Join(OptionWords(OptionsOf(m)), ' ')
  {
    var c := OptionClauses(m);
    var n := Decimal.FormatInt(m.connectionLimit as int);
    var tail := [c[3], c[4], c[5], c[6]];
    var clauses := ["CONNECTION LIMIT " + n] + tail;
    var words := ["CONNECTION"] + (["LIMIT"] + ([n] + tail));
    assert c == [c[0], c[1]] + clauses;
    assert OptionWords(OptionsOf(m)) == [c[0], c[1]] + words;
    JoinLimitWords(n, tail);
    JoinSamePrefix(c[0], c[1], clauses, words);
  }

  /** Reading back the rendered clause gives the seven attributes back. */
  lemma OptionsRoundTrip(m: RoleModel)
    ensures ParseOptionsString(GetOptionsString(m)) == Some(OptionsOf(m))
  {
    var o := OptionsOf(m);
    var w := OptionWords(o);
    ClausesAreWords(m);
    OptionWordsHaveNoSpaces(o);
    SplitJoin(w, ' ');
    WordsRoundTrip(o);
  }

  /** No word of the clause holds a space, so splitting at spaces finds the words again. */
  lemma OptionWordsHaveNoSpaces(o: RoleOptions)
    ensures forall i :: 0 <= i < |OptionWords(o)| ==> ' ' !in OptionWords(o)[i]
  {
    var w := OptionWords(o);
    forall i | 0 <= i < |w|
      ensures ' ' !in w[i]
    {
      if i == 4 {
        assert w[4] == Decimal.FormatInt(o.connectionLimit as int);
      } else if i != 2 && i != 3 {
        var keyword := ["BYPASSRLS", "LOGIN", "", "", "", "CREATEROLE", "INHERIT", "REPLICATION", "SUPERUSER"][i];
        assert w[i] == keyword || w[i] == "NO" + keyword;
        assert ' ' !in keyword;
      }
    }
  }

  lemma WordsRoundTrip(o: RoleOptions)
    ensures ParseOptionWords(OptionWords(o)) == Some(o)
  {
    ParseFlagOption(o.bypassRowLevelSecurity, "BYPASSRLS");
    ParseFlagOption(o.canLogin, "LOGIN");
    Decimal.FormatIntRoundTrip(o.connectionLimit as int);
    ParseFlagOption(o.createRole, "CREATEROLE");
    ParseFlagOption(o.inherit, "INHERIT");
    ParseFlagOption(o.replication, "REPLICATION");
    ParseFlagOption(o.superuser, "SUPERUSER");
  }

  /**
   * The clause depends on the seven option attributes and on nothing else
   * (`name` and `oid` are never read), and it determines them.
   */
  lemma OptionsStringDeterminesOptions(m1: RoleModel, m2: RoleModel)
    ensures GetOptionsString(m1) == GetOptionsString(m2) <==> OptionsOf(m1) == OptionsOf(m2)
  {
    OptionsRoundTrip(m1);
    OptionsRoundTrip(m2);
    if OptionsOf(m1) == OptionsOf(m2) {
      assert OptionClauses(m1) == OptionClauses(m2);
    }
  }

  /** Seven clauses joined by single spaces, written out. */
  lemma JoinSeven(a: string, b: string, c: string, d: string, e: string, f: string, g: string)
    ensures Join([a, b, c, d, e, f, g], ' ')
         == a + " " + b + " " + c + " " + d + " " + e + " " + f + " " + g
  {
    JoinCons(f, [g], ' ');
    JoinCons(e, [f, g], ' ');
    JoinCons(d, [e, f, g], ' ');
    JoinCons(c, [d, e, f, g], ' ');
    JoinCons(b, [c, d, e, f, g], ' ');
    JoinCons(a, [b, c, d, e, f, g], ' ');
  }

  /** The clause for the schema defaults: `connection_limit` -1, `inherit` true, the rest false. */
  lemma DefaultOptionsString(m: RoleModel)
    requires OptionsOf(m) == RoleOptions(false, false, -1, false, true, false, false)
    ensures GetOptionsString(m)
         == "NOBYPASSRLS" + " " + "NOLOGIN" + " " + "CONNECTION LIMIT -1" + " " + "NOCREATEROLE" + " " +
            "INHERIT" + " " + "NOREPLICATION" + " " + "NOSUPERUSER"
  {
    assert Decimal.FormatInt(-1) == "-1";
    assert ConnectionLimitAsOptionString(m) == "CONNECTION LIMIT -1";
    assert BypassRowLevelSecurityAsOptionString(m) == "NOBYPASSRLS";
    assert CanLoginAsOptionString(m) == "NOLOGIN";
    assert CreateRoleAsOptionString(m) == "NOCREATEROLE";
    assert InheritAsOptionString(m) == "INHERIT";
    assert ReplicationAsOptionString(m) == "NOREPLICATION";
    assert SuperuserAsOptionString(m) == "NOSUPERUSER";
    assert OptionClauses(m)
        == ["NOBYPASSRLS", "NOLOGIN", "CONNECTION LIMIT -1", "NOCREATEROLE", "INHERIT", "NOREPLICATION", "NOSUPERUSER"];
    JoinSeven("NOBYPASSRLS", "NOLOGIN", "CONNECTION LIMIT -1", "NOCREATEROLE", "INHERIT", "NOREPLICATION", "NOSUPERUSER");
  }

  /** The clause for a login role limited to 10 connections, the other attributes at their defaults. */
  lemma LoginRoleOptionsString(m: RoleModel)
    requires OptionsOf(m) == RoleOptions(false, true, 10, false, true, false, false)
    ensures GetOptionsString(m)
         == "NOBYPASSRLS" + " " + "LOGIN" + " " + "CONNECTION LIMIT 10" + " " + "NOCREATEROLE" + " " +
            "INHERIT" + " " + "NOREPLICATION" + " " + "NOSUPERUSER"
  {
    assert Decimal.FormatInt(10) == "10";
    assert ConnectionLimitAsOptionString(m) == "CONNECTION LIMIT 10";
    assert BypassRowLevelSecurityAsOptionString(m) == "NOBYPASSRLS";
    assert CanLoginAsOptionString(m) == "LOGIN";
    assert CreateRoleAsOptionString(m) == "NOCREATEROLE";
    assert InheritAsOptionString(m) == "INHERIT";
    assert ReplicationAsOptionString(m) == "NOREPLICATION";
    assert SuperuserAsOptionString(m) == "NOSUPERUSER";
    assert OptionClauses(m)
        == ["NOBYPASSRLS", "LOGIN", "CONNECTION LIMIT 10", "NOCREATEROLE", "INHERIT", "NOREPLICATION", "NOSUPERUSER"];
    JoinSeven("NOBYPASSRLS", "LOGIN", "CONNECTION LIMIT 10", "NOCREATEROLE", "INHERIT", "NOREPLICATION", "NOSUPERUSER");
  }

  // ---------------------------------------------------------------------
  // Statements
  // ---------------------------------------------------------------------

  /** `CREATE ROLE %s WITH %s;`. */
  function CreateRoleSql(name: string, options: string): string {
    RoleStatement("CREATE", name, options)
  }

  /** `ALTER ROLE %s WITH %s;`. */
  function AlterRoleSql(name: string, options: string): string {
    RoleStatement("ALTER", name, options)
  }

  /** The shape both format strings share: `<verb> ROLE %s WITH %s;`. */
  function RoleStatement(verb: string, name: string, options: string): string {
    verb + " ROLE " + name + " WITH " + options + ";"
  }

  /**
   * The reader of the two statements above: for a statement known to be
   * `<verb> ROLE <name> WITH ...;`, the options it sets.
   */
  function StatementOptions(stmt: string, verb: string, name: string): Option<RoleOptions> {
    var head := verb + " ROLE " + name + " WITH ";
    if |head| < |stmt| && stmt[..|head|] == head && stmt[|stmt| - 1] == ';'
    then ParseOptionsString(stmt[|head|..|stmt| - 1])
    else None
  }

  lemma StatementOptionsOf(verb: string, name: string, options: string)
    ensures StatementOptions(RoleStatement(verb, name, options), verb, name) == ParseOptionsString(options)
  {
    var head := verb + " ROLE " + name + " WITH ";
    var stmt := head + options + ";";
    assert stmt[..|head|] == head;
    assert stmt[|head|..|stmt| - 1] == options;
  }

  /**
   * The role's own name, read back from `CREATE ROLE` and `ALTER ROLE`,
   * gives its seven attributes: the statements carry the options unchanged.
   */
  lemma RoleStatementsCarryOptions(m: RoleModel)
    ensures StatementOptions(CreateRoleSql(m.name, GetOptionsString(m)), "CREATE", m.name) == Some(OptionsOf(m))
    ensures StatementOptions(AlterRoleSql(m.name, GetOptionsString(m)), "ALTER", m.name) == Some(OptionsOf(m))
  {
    var options := GetOptionsString(m);
    OptionsRoundTrip(m);
    StatementOptionsOf("CREATE", m.name, options);
    StatementOptionsOf("ALTER", m.name, options);
  }

  /** `DROP ROLE %s;`. */
  function DropRoleSql(name: string): string {
    "DROP ROLE " + name + ";"
  }

  /** The name goes verbatim between `DROP ROLE ` and the semicolon. */
  lemma DropRoleSqlQuotesName(name: string)
    ensures var r := DropRoleSql(name);
      && |r| == |"DROP ROLE "| + |name| + 1
      && r[..|"DROP ROLE "|] == "DROP ROLE " && r[|r| - 1] == ';'
      && r[|"DROP ROLE "|..|r| - 1] == name
  {
  }

  /** `SELECT oid FROM pg_roles WHERE rolname = '%s'`. */
  function SelectOidSql(name: string): string {
    SelectOidHead + name + "'"
  }

  const SelectOidHead := "SELECT oid FROM pg_roles WHERE rolname = '"

  /** The name goes verbatim between the quotes, with nothing escaped. */
  lemma SelectOidSqlQuotesName(name: string)
    ensures var r := SelectOidSql(name);
      && |r| == |SelectOidHead| + |name| + 1
      && r[..|SelectOidHead|] == SelectOidHead && r[|r| - 1] == '\''
      && r[|SelectOidHead|..|r| - 1] == name
  {
  }

  /** The text of Read's query up to the oid, with the line breaks and indentation of the source. */
  const SelectRoleHead :=
    "\nSELECT\n    rolbypassrls,\n    rolcanlogin,\n    rolconnlimit,\n" +
    "    rolcreaterole,\n    rolinherit,\n    rolname,\n    rolreplication,\n" +
    "    rolsuper\nFROM \n    pg_roles\nWHERE \n    oid = "

  /** Read's query: the columns of `pg_roles` for the role with the given oid (`%d` of an int64). */
  function SelectRoleSql(oid: int64): string {
    SelectRoleHead + Decimal.FormatInt(oid as int) + ";"
  }

  /** Read's query selects exactly the oid it was built from. */
  lemma SelectRoleSqlRoundTrip(oid: int64)
    ensures SelectRoleOid(SelectRoleSql(oid)) == Some(oid)
  {
    FramedOidRoundTrip(SelectRoleHead, oid);
  }

  /** The reader of Read's query: the oid it selects. */
  function SelectRoleOid(stmt: string): Option<int64> {
    FramedOid(SelectRoleHead, stmt)
  }

  /** The `int64` written between `head` and a closing `;`, if any. */
  function FramedOid(head: string, stmt: string): Option<int64> {
    if |head| < |stmt| && stmt[..|head|] == head && stmt[|stmt| - 1] == ';'
    then
      match Decimal.ParseInt(stmt[|head|..|stmt| - 1])
      case Some(n) =>
        if -0x8000_0000_0000_0000 <= n < 0x8000_0000_0000_0000 then Some(n as int64) else None
      case None => None
    else None
  }

  lemma FramedOidRoundTrip(head: string, oid: int64)
    ensures FramedOid(head, head + Decimal.FormatInt(oid as int) + ";") == Some(oid)
  {
    var d := Decimal.FormatInt(oid as int);
    var r := head + d + ";";
    assert r[..|head|] == head;
    assert r[|head|..|r| - 1] == d;
    Decimal.FormatIntRoundTrip(oid as int);
  }
}
