/**
 * The PostgreSQL-only version parser (internal/postgresql/pg_version.go):
 * the same first-match loop as `ParseDbVersion`, over a pattern list that
 * holds only the PostgreSQL pattern, returning group 2 alone.
 */
module PgVersionParser {
  import opened Basics
  import opened DbVersionParser
  import VersionVectors

  /** Go's `(string, error)` pair; `None` stands for a nil error. */
  datatype PgParsed = PgParsed(version: string, err: Option<string>)

  /** The pattern list of `ParsePostgresVersion`. */
  const PgPatterns := [PostgresPattern]

  /** `ParsePostgresVersion`: the version after the leftmost `PostgreSQL `, or `""` and an error. */
  function ParsePostgresVersion(s: string): (r: PgParsed)
    ensures r.err.None? ==> |r.version| > 0 && AllVersionChars(r.version)
    ensures r.err.Some? ==> r.version == "" && r.err.value == UnrecognizedMessage(s)
  {
    match FirstMatch(s, PgPatterns)
    case Some(m) => PgParsed(m.dbVersion, None)
    case None => PgParsed("", Some(UnrecognizedMessage(s)))
  }

  /** The meaning of `ParsePostgresVersion` in terms of the PostgreSQL pattern alone. */
  lemma ParsePostgresVersionSpec(s: string, v: string)
    ensures ParsePostgresVersion(s) == PgParsed(v, None) <==> LeftmostCapture(s, PostgresPattern, v)
    ensures ParsePostgresVersion(s).err.Some? <==> !Occurs(s, PostgresPattern)
  {
    SubmatchSpec(s, PostgresPattern);
    assert FirstMatch(s, PgPatterns) == match Submatch(s, PostgresPattern)
      case Some(w) => Some(DbVersion(PostgresPattern.product, w))
      case None => None;
  }

  /**
   * Wherever the CockroachDB pattern does not occur, the two parsers agree:
   * the same version text, and an error from one exactly when from the other.
   */
  lemma AgreesWithParseDbVersion(s: string)
    requires !Occurs(s, CockroachPattern)
    ensures ParsePostgresVersion(s).version == ParseDbVersion(s).version.dbVersion
    ensures ParsePostgresVersion(s).err == ParseDbVersion(s).err
  {
    SubmatchSpec(s, PostgresPattern);
    var r := ParsePostgresVersion(s);
    ParsePostgresVersionSpec(s, r.version);
    ParseDbVersionSpec(s, r.version);
  }

  /** A text that starts with `PostgreSQL `, a version and a space yields that version. */
  lemma PostgresLeadingVersion(v: string, tail: string)
    requires |v| > 0 && AllVersionChars(v)
    ensures ParsePostgresVersion("PostgreSQL " + v + " " + tail) == PgParsed(v, None)
  {
    VersionVectors.LeadingCapture(PostgresPattern, v, tail);
    ParsePostgresVersionSpec("PostgreSQL " + v + " " + tail, v);
  }

  /** The expected outputs of pg_version_test.go. */
  lemma DockerPostgres156Version()
    ensures ParsePostgresVersion(VersionVectors.DockerPostgres156) == PgParsed("15.6", None)
  {
    PostgresLeadingVersion("15.6", VersionVectors.DockerPostgres156Tail);
  }

  lemma RdsPostgres155Version()
    ensures ParsePostgresVersion(VersionVectors.RdsPostgres155) == PgParsed("15.5", None)
  {
    PostgresLeadingVersion("15.5", VersionVectors.RdsPostgres155Tail);
  }

  lemma AuroraPostgres156Version()
    ensures ParsePostgresVersion(VersionVectors.AuroraPostgres156) == PgParsed("15.6", None)
  {
    PostgresLeadingVersion("15.6", VersionVectors.AuroraPostgres156Tail);
  }

  lemma DockerPostgres174Version()
    ensures ParsePostgresVersion(VersionVectors.DockerPostgres174) == PgParsed("17.4", None)
  {
    PostgresLeadingVersion("17.4", VersionVectors.DockerPostgres174Tail);
  }
}
