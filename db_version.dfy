/**
 * Database engine and version detection from the text of `SELECT VERSION();`
 * (internal/postgresql/db_version.go).
 *
 * The source tries two regular expressions in order, each of the shape
 * `(<product>) <lead>([\d+.]+) .*`, unanchored, and takes the first one that
 * matches. Instead of a regular-expression engine the model has one
 * `Pattern` per expression and two readings of what "matches" means:
 *
 *  - `Captures(s, p, i, v)`: the declarative reading of the expression,
 *    "at offset i the text is the lead, then the non-empty run v of
 *    `[0-9+.]`, then a space";
 *  - `MatchesAt` and `FindFrom`: the computation, which scans for the
 *    leftmost offset and measures the maximal run.
 *
 * The lemmas connect the two, so the contract of `ParseDbVersion` can be
 * stated in terms of the declarative reading.
 */
module DbVersionParser {
  import opened Basics

  /** `DbVersion` of the source: the product name and the dotted version. */
  datatype DbVersion = DbVersion(dbType: string, dbVersion: string)

  /**
   * Go's `(DbVersion, error)` pair. An error is represented by its message;
   * `None` stands for a nil error.
   */
  datatype Parsed = Parsed(version: DbVersion, err: Option<string>)

  /**
   * One pattern `(<product>) <lead-rest>([\d+.]+) .*`: `product` is what
   * group 1 captures, `lead` is the literal text before group 2 (the product
   * followed by the rest of the literal).
   */
  datatype Pattern = Pattern(product: string, lead: string)

  /** `(CockroachDB CCL) v([\d+.]+) .*` */
  const CockroachPattern := Pattern("CockroachDB CCL", "CockroachDB CCL v")

  /** `(PostgreSQL) ([\d+.]+) .*` */
  const PostgresPattern := Pattern("PostgreSQL", "PostgreSQL ")

  /** The patterns of `ParseDbVersion`, in the order they are tried. */
  const DbPatterns := [CockroachPattern, PostgresPattern]

  /** The text wrapped around the input in the error of both parsers. */
  const ErrorPrefix := "output of `SELECT VERSION();`: '"
  const ErrorSuffix := "', didn't match expected patterns"

  /** The message of `fmt.Errorf` when no pattern matches `s`. */
  function UnrecognizedMessage(s: string): (m: string)
    ensures |m| == |ErrorPrefix| + |s| + |ErrorSuffix|
    ensures m[..|ErrorPrefix|] == ErrorPrefix
    ensures m[|ErrorPrefix|..|ErrorPrefix| + |s|] == s
    ensures m[|ErrorPrefix| + |s|..] == ErrorSuffix
  {
    ErrorPrefix + s + ErrorSuffix
  }

  /** The character class `[\d+.]` (in RE2, `\d` is the ASCII digits only). */
  predicate IsVersionChar(c: char) {
    '0' <= c <= '9' || c == '+' || c == '.'
  }

  predicate AllVersionChars(v: string) {
    forall i :: 0 <= i < |v| ==> IsVersionChar(v[i])
  }

  /**
   * The declarative reading of a pattern: at offset `i` the text holds the
   * lead, then the non-empty `[0-9+.]` run `v`, then a space.
   */
  ghost predicate Captures(s: string, p: Pattern, i: nat, v: string) {
    var k := i + |p.lead|;
    && k + |v| < |s|
    && s[i..k] == p.lead
    && |v| > 0 && AllVersionChars(v)
    && s[k..k + |v|] == v
    && s[k + |v|] == ' '
  }

  /** The pattern occurs somewhere in `s`. */
  ghost predicate Occurs(s: string, p: Pattern) {
    exists i: nat, v :: Captures(s, p, i, v)
  }

  /**
   * What `FindStringSubmatch` returns for group 2: the pattern occurs at `i`
   * with capture `v` and at no offset left of `i`.
   */
  ghost predicate LeftmostCapture(s: string, p: Pattern, v: string) {
    exists i: nat ::
      && Captures(s, p, i, v)
      && forall j: nat, w :: j < i ==> !Captures(s, p, j, w)
  }

  /** The end of the maximal `[0-9+.]` run that starts at `k`. */
  function RunEnd(s: string, k: nat): (e: nat)
    requires k <= |s|
    ensures k <= e <= |s|
    ensures forall j :: k <= j < e ==> IsVersionChar(s[j])
    ensures e < |s| ==> !IsVersionChar(s[e])
    decreases |s| - k
  {
    if k < |s| && IsVersionChar(s[k]) then RunEnd(s, k + 1) else k
  }

  /** The pattern matches at `i`: lead, a non-empty maximal run, a space. */
  predicate MatchesAt(s: string, p: Pattern, i: nat) {
    var k := i + |p.lead|;
    && k <= |s|
    && s[i..k] == p.lead
    && var e := RunEnd(s, k);
       k < e < |s| && s[e] == ' '
  }

  /** The text group 2 captures when the pattern matches at `i`. */
  function CaptureAt(s: string, p: Pattern, i: nat): (v: string)
    requires MatchesAt(s, p, i)
    ensures Captures(s, p, i, v)
  {
    var k := i + |p.lead|;
    s[k..RunEnd(s, k)]
  }

  /** The computation and the declarative reading agree at every offset. */
  lemma MatchesAtIffCaptures(s: string, p: Pattern, i: nat, v: string)
    requires Captures(s, p, i, v)
    ensures MatchesAt(s, p, i) && CaptureAt(s, p, i) == v
  {
    var k := i + |p.lead|;
    assert forall j :: k <= j < k + |v| ==> s[j] == v[j - k];
    RunEndOfRun(s, k, k + |v|);
  }

  /** A run of version characters closed by a non-version character is the maximal run. */
  lemma {:induction false} RunEndOfRun(s: string, k: nat, e: nat)
    requires k <= e < |s|
    requires forall j :: k <= j < e ==> IsVersionChar(s[j])
    requires !IsVersionChar(s[e])
    ensures RunEnd(s, k) == e
    decreases e - k
  {
    if k < e {
      RunEndOfRun(s, k + 1, e);
    }
  }

  /** The leftmost offset at or after `i` where the pattern matches. */
  function FindFrom(s: string, p: Pattern, i: nat): (r: Option<nat>)
    requires i <= |s|
    ensures r.Some? ==> i <= r.value <= |s| && MatchesAt(s, p, r.value)
    ensures r.Some? ==> forall j :: i <= j < r.value ==> !MatchesAt(s, p, j)
    ensures r.None? ==> forall j :: i <= j <= |s| ==> !MatchesAt(s, p, j)
    decreases |s| - i
  {
    if MatchesAt(s, p, i) then Some(i)
    else if i == |s| then None
    else FindFrom(s, p, i + 1)
  }

  /** Group 2 of the pattern's leftmost match, as `FindStringSubmatch` gives it. */
  function Submatch(s: string, p: Pattern): (r: Option<string>)
    ensures r.Some? ==> |r.value| > 0 && AllVersionChars(r.value)
  {
    match FindFrom(s, p, 0)
    case Some(i) => Some(CaptureAt(s, p, i))
    case None => None
  }

  /** `Submatch` is exactly the leftmost capture of the declarative reading. */
  lemma SubmatchSpec(s: string, p: Pattern)
    ensures Submatch(s, p).Some? <==> Occurs(s, p)
    ensures Submatch(s, p).Some? ==> LeftmostCapture(s, p, Submatch(s, p).value)
    ensures forall v :: LeftmostCapture(s, p, v) ==> Submatch(s, p) == Some(v)
  {
    if FindFrom(s, p, 0).Some? {
      SubmatchFound(s, p, FindFrom(s, p, 0).value);
    } else {
      SubmatchNotFound(s, p);
    }
  }

  /** Where the scan stops, the capture there is the leftmost one, and the only leftmost one. */
  lemma SubmatchFound(s: string, p: Pattern, i: nat)
    requires FindFrom(s, p, 0) == Some(i)
    ensures LeftmostCapture(s, p, CaptureAt(s, p, i))
    ensures forall v :: LeftmostCapture(s, p, v) ==> v == CaptureAt(s, p, i)
  {
    var v := CaptureAt(s, p, i);
    forall j: nat, w | j < i
      ensures !Captures(s, p, j, w)
    {
      if Captures(s, p, j, w) {
        MatchesAtIffCaptures(s, p, j, w);
      }
    }
    assert Captures(s, p, i, v);
    forall v' | LeftmostCapture(s, p, v')
      ensures v' == v
    {
      var i' :| Captures(s, p, i', v') && forall j: nat, w :: j < i' ==> !Captures(s, p, j, w);
      MatchesAtIffCaptures(s, p, i', v');
    }
  }

  /** Where the scan finds nothing, the pattern does not occur. */
  lemma SubmatchNotFound(s: string, p: Pattern)
    requires FindFrom(s, p, 0).None?
    ensures !Occurs(s, p)
  {
    forall i: nat, v
      ensures !Captures(s, p, i, v)
    {
      if Captures(s, p, i, v) {
        MatchesAtIffCaptures(s, p, i, v);
      }
    }
  }

  /** The source's loop over the pattern slice: the first pattern that matches wins. */
  function FirstMatch(s: string, patterns: seq<Pattern>): (r: Option<DbVersion>)
    ensures r.Some? ==> exists p :: p in patterns && r.value.dbType == p.product
    ensures r.Some? ==> |r.value.dbVersion| > 0 && AllVersionChars(r.value.dbVersion)
  {
    if patterns == [] then None
    else match Submatch(s, patterns[0])
      case Some(v) => Some(DbVersion(patterns[0].product, v))
      case None => FirstMatch(s, patterns[1..])
  }

  /**
   * The loop's result in full: it returns nothing exactly when no pattern
   * matches ...
   */
  lemma {:induction false} FirstMatchNone(s: string, patterns: seq<Pattern>)
    ensures FirstMatch(s, patterns).None? <==>
      forall k :: 0 <= k < |patterns| ==> Submatch(s, patterns[k]).None?
  {
    if patterns != [] && Submatch(s, patterns[0]).None? {
      var rest := patterns[1..];
      FirstMatchNone(s, rest);
      assert forall k :: 0 < k < |patterns| ==> patterns[k] == rest[k - 1];
    }
  }

  /**
   * ... and when the pattern at `k` matches and every earlier one fails, the
   * loop returns that pattern's product and group 2.
   */
  lemma {:induction false} FirstMatchAt(s: string, patterns: seq<Pattern>, k: nat)
    requires k < |patterns| && Submatch(s, patterns[k]).Some?
    requires forall j :: 0 <= j < k ==> Submatch(s, patterns[j]).None?
    ensures FirstMatch(s, patterns) == Some(DbVersion(patterns[k].product, Submatch(s, patterns[k]).value))
  {
    if k > 0 {
      var rest := patterns[1..];
      assert Submatch(s, patterns[0]).None?;
      assert forall j :: 0 <= j < k - 1 ==> rest[j] == patterns[j + 1];
      FirstMatchAt(s, rest, k - 1);
    }
  }

  /**
   * `ParseDbVersion`: the product and version of the first pattern that
   * matches, or an empty `DbVersion` with an error naming the input.
   */
  function ParseDbVersion(s: string): (r: Parsed)
    ensures r.err.None? ==> r.version.dbType in {"CockroachDB CCL", "PostgreSQL"}
    ensures r.err.None? ==> |r.version.dbVersion| > 0 && AllVersionChars(r.version.dbVersion)
    ensures r.err.Some? ==> r.version == DbVersion("", "") && r.err.value == UnrecognizedMessage(s)
  {
    match FirstMatch(s, DbPatterns)
    case Some(v) => Parsed(v, None)
    case None => Parsed(DbVersion("", ""), Some(UnrecognizedMessage(s)))
  }

  /**
   * The full meaning of `ParseDbVersion` in terms of the two patterns:
   * CockroachDB wins whenever it occurs; PostgreSQL is reported only when
   * CockroachDB does not occur; the error is returned exactly when neither does.
   */
  lemma ParseDbVersionSpec(s: string, v: string)
    ensures ParseDbVersion(s) == Parsed(DbVersion("CockroachDB CCL", v), None)
            <==> LeftmostCapture(s, CockroachPattern, v)
    ensures ParseDbVersion(s) == Parsed(DbVersion("PostgreSQL", v), None)
            <==> !Occurs(s, CockroachPattern) && LeftmostCapture(s, PostgresPattern, v)
    ensures ParseDbVersion(s).err.Some?
            <==> !Occurs(s, CockroachPattern) && !Occurs(s, PostgresPattern)
  {
    SubmatchSpec(s, CockroachPattern);
    SubmatchSpec(s, PostgresPattern);
    assert DbPatterns[1..] == [PostgresPattern];
    assert FirstMatch(s, [PostgresPattern]) == match Submatch(s, PostgresPattern)
      case Some(w) => Some(DbVersion(PostgresPattern.product, w))
      case None => None;
  }

  /** Pattern priority: an occurrence of the CockroachDB pattern anywhere decides the product. */
  lemma CockroachTakesPriority(s: string)
    requires Occurs(s, CockroachPattern)
    ensures ParseDbVersion(s).err.None?
    ensures ParseDbVersion(s).version.dbType == "CockroachDB CCL"
  {
    SubmatchSpec(s, CockroachPattern);
    var v := Submatch(s, CockroachPattern).value;
    ParseDbVersionSpec(s, v);
  }

  /** Past its first character, `PostgreSQL ` and a version hold no `P`, and nowhere a `C`. */
  lemma PostgresTextLetters(v: string)
    requires AllVersionChars(v)
    ensures var s := "PostgreSQL " + v;
      'C' !in s && forall j :: 0 < j < |s| ==> s[j] != 'P'
  {
    var s := "PostgreSQL " + v;
    assert 'C' !in "PostgreSQL " && 'P' !in "ostgreSQL ";
    forall j | 0 <= j < |s|
      ensures s[j] != 'C' && (j > 0 ==> s[j] != 'P')
    {
      if j < 11 {
        assert s[j] == "PostgreSQL "[j];
        if j > 0 {
          assert s[j] == "ostgreSQL "[j - 1];
        }
      } else {
        assert s[j] == v[j - 11];
      }
    }
  }

  /** A pattern cannot occur in a text that lacks one of the characters of its lead. */
  lemma LeadCharAbsent(s: string, p: Pattern, k: nat)
    requires k < |p.lead| && p.lead[k] !in s
    ensures !Occurs(s, p)
  {
    forall i: nat, w
      ensures !Captures(s, p, i, w)
    {
      if i + k < |s| {
        assert s[i + k] != p.lead[k];
      }
    }
  }

  /**
   * The space after the version is required: a version at the very end of
   * the text is rejected.
   */
  lemma VersionAtEndRejected(v: string)
    requires |v| > 0 && AllVersionChars(v)
    ensures ParseDbVersion("PostgreSQL " + v).err.Some?
  {
    var s := "PostgreSQL " + v;
    PostgresTextLetters(v);
    LeadCharAbsent(s, CockroachPattern, 0);
    forall i: nat, w
      ensures !Captures(s, PostgresPattern, i, w)
    {
      if i == 0 && |w| < |v| {
        assert s[11 + |w|] == v[|w|];
      } else if 0 < i < |s| {
        assert s[i] != 'P';
      }
    }
    ParseDbVersionSpec(s, "");
  }
}

/**
 * The test inputs of internal/postgresql/db_version_test.go and
 * pg_version_test.go. Each is written as a concatenation of short literals
 * (the same text), which keeps the proofs about them small.
 */
module VersionVectors {
  import opened Basics
  import opened DbVersionParser

  const DockerPostgres156 := "PostgreSQL " + "15.6" + " " + DockerPostgres156Tail
  const DockerPostgres156Tail :=
    ("(Debian 15.6-" + "1.pgdg120+2) " + "on aarch64-") +
    ("unknown-linu" + "x-gnu, compi" + "led by gcc ") +
    ("(Debian 12." + "2.0-14) 12." + "2.0, 64-bit")

  const RdsPostgres155 := "PostgreSQL " + "15.5" + " " + RdsPostgres155Tail
  const RdsPostgres155Tail :=
    ("on x86_64-pc" + "-linux-gnu, " + "compiled by ") +
    ("gcc (GCC) 7." + "3.1 20180712" + " (Red Hat ") +
    ("7.3.1-" + "12), 6" + "4-bit")

  const AuroraPostgres156 := "PostgreSQL " + "15.6" + " " + AuroraPostgres156Tail
  const AuroraPostgres156Tail :=
    ("on aarch64-un" + "known-linux-g" + "nu, compiled ") +
    ("by aarch64-" + "unknown-lin" + "ux-gnu-gcc ") +
    ("(GCC) 9" + ".5.0, 6" + "4-bit")

  const DockerPostgres174 := "PostgreSQL " + "17.4" + " " + DockerPostgres174Tail
  const DockerPostgres174Tail :=
    ("(Debian 17.4-" + "1.pgdg120+2) " + "on aarch64-") +
    ("unknown-linu" + "x-gnu, compi" + "led by gcc ") +
    ("(Debian 12." + "2.0-14) 12." + "2.0, 64-bit")

  const Cockroach2430 := "CockroachDB CCL v" + "24.3.0" + " " + Cockroach2430Tail
  const Cockroach2430Tail :=
    "(aarch64-unknown-linux-gnu, built " + "2024/11/21 17:04:09, go1.22.8 " +
    "X:nocoverageredesign)"

  /** A text that starts with the pattern's lead, a version and a space is captured at offset 0. */
  lemma LeadingCapture(p: Pattern, v: string, rest: string)
    requires |v| > 0 && AllVersionChars(v)
    ensures LeftmostCapture(p.lead + v + " " + rest, p, v)
  {
    var s := p.lead + v + " " + rest;
    assert s[..|p.lead|] == p.lead;
    assert s[|p.lead|..|p.lead| + |v|] == v;
    assert Captures(s, p, 0, v);
  }

  /**
   * A text that starts with `PostgreSQL `, a version and a space, and has no
   * `B` after that, cannot hold the CockroachDB pattern (whose lead has a `B`).
   */
  lemma PostgresLeadingNoCockroach(v: string, tail: string)
    requires AllVersionChars(v) && 'B' !in tail
    ensures !Occurs("PostgreSQL " + v + " " + tail, CockroachPattern)
  {
    var s := "PostgreSQL " + v + " " + tail;
    assert 'B' !in "PostgreSQL ";
    assert 'B' !in s by {
      forall j | 0 <= j < |s|
        ensures s[j] != 'B'
      {
        if j < 11 {
          assert s[j] in "PostgreSQL ";
        } else if j < 11 + |v| {
          assert IsVersionChar(s[j]);
        } else if j > 11 + |v| {
          assert s[j] == tail[j - 12 - |v|];
        }
      }
    }
    LeadCharAbsent(s, CockroachPattern, 10);
  }

  /** Such a text parses as PostgreSQL with that version. */
  lemma PostgresLeading(v: string, tail: string)
    requires |v| > 0 && AllVersionChars(v) && 'B' !in tail
    ensures ParseDbVersion("PostgreSQL " + v + " " + tail) == Parsed(DbVersion("PostgreSQL", v), None)
  {
    PostgresLeadingNoCockroach(v, tail);
    LeadingCapture(PostgresPattern, v, tail);
    ParseDbVersionSpec("PostgreSQL " + v + " " + tail, v);
  }

  /** A character absent from three pieces is absent from their concatenation. */
  lemma AbsentFromPieces(c: char, a: string, b: string, d: string)
    requires c !in a && c !in b && c !in d
    ensures c !in a + b + d
  {
    var s := a + b + d;
    forall j | 0 <= j < |s|
      ensures s[j] != c
    {
      if j < |a| {
        assert s[j] == a[j];
      } else if j < |a| + |b| {
        assert s[j] == b[j - |a|];
      } else {
        assert s[j] == d[j - |a| - |b|];
      }
    }
  }

  lemma DockerPostgres156TailHasNoB()
    ensures 'B' !in DockerPostgres156Tail
  {
    AbsentFromPieces('B', "(Debian 15.6-", "1.pgdg120+2) ", "on aarch64-");
    AbsentFromPieces('B', "unknown-linu", "x-gnu, compi", "led by gcc ");
    AbsentFromPieces('B', "(Debian 12.", "2.0-14) 12.", "2.0, 64-bit");
    AbsentFromPieces('B', "(Debian 15.6-" + "1.pgdg120+2) " + "on aarch64-", "unknown-linu" + "x-gnu, compi" + "led by gcc ", "(Debian 12." + "2.0-14) 12." + "2.0, 64-bit");
  }

  lemma RdsPostgres155TailHasNoB()
    ensures 'B' !in RdsPostgres155Tail
  {
    AbsentFromPieces('B', "on x86_64-pc", "-linux-gnu, ", "compiled by ");
    AbsentFromPieces('B', "gcc (GCC) 7.", "3.1 20180712", " (Red Hat ");
    AbsentFromPieces('B', "7.3.1-", "12), 6", "4-bit");
    AbsentFromPieces('B', "on x86_64-pc" + "-linux-gnu, " + "compiled by ", "gcc (GCC) 7." + "3.1 20180712" + " (Red Hat ", "7.3.1-" + "12), 6" + "4-bit");
  }

  lemma AuroraPostgres156TailHasNoB()
    ensures 'B' !in AuroraPostgres156Tail
  {
    AbsentFromPieces('B', "on aarch64-un", "known-linux-g", "nu, compiled ");
    AbsentFromPieces('B', "by aarch64-", "unknown-lin", "ux-gnu-gcc ");
    AbsentFromPieces('B', "(GCC) 9", ".5.0, 6", "4-bit");
    AbsentFromPieces('B', "on aarch64-un" + "known-linux-g" + "nu, compiled ", "by aarch64-" + "unknown-lin" + "ux-gnu-gcc ", "(GCC) 9" + ".5.0, 6" + "4-bit");
  }

  lemma DockerPostgres174TailHasNoB()
    ensures 'B' !in DockerPostgres174Tail
  {
    AbsentFromPieces('B', "(Debian 17.4-", "1.pgdg120+2) ", "on aarch64-");
    AbsentFromPieces('B', "unknown-linu", "x-gnu, compi", "led by gcc ");
    AbsentFromPieces('B', "(Debian 12.", "2.0-14) 12.", "2.0, 64-bit");
    AbsentFromPieces('B', "(Debian 17.4-" + "1.pgdg120+2) " + "on aarch64-", "unknown-linu" + "x-gnu, compi" + "led by gcc ", "(Debian 12." + "2.0-14) 12." + "2.0, 64-bit");
  }

  /** The expected outputs of db_version_test.go, one lemma per test case. */
  lemma DockerPostgres156Parsed()
    ensures ParseDbVersion(DockerPostgres156) == Parsed(DbVersion("PostgreSQL", "15.6"), None)
  {
    DockerPostgres156TailHasNoB();
    PostgresLeading("15.6", DockerPostgres156Tail);
  }

  lemma RdsPostgres155Parsed()
    ensures ParseDbVersion(RdsPostgres155) == Parsed(DbVersion("PostgreSQL", "15.5"), None)
  {
    RdsPostgres155TailHasNoB();
    PostgresLeading("15.5", RdsPostgres155Tail);
  }

  lemma AuroraPostgres156Parsed()
    ensures ParseDbVersion(AuroraPostgres156) == Parsed(DbVersion("PostgreSQL", "15.6"), None)
  {
    AuroraPostgres156TailHasNoB();
    PostgresLeading("15.6", AuroraPostgres156Tail);
  }

  lemma DockerPostgres174Parsed()
    ensures ParseDbVersion(DockerPostgres174) == Parsed(DbVersion("PostgreSQL", "17.4"), None)
  {
    DockerPostgres174TailHasNoB();
    PostgresLeading("17.4", DockerPostgres174Tail);
  }

  lemma Cockroach2430Parsed()
    ensures ParseDbVersion(Cockroach2430) == Parsed(DbVersion("CockroachDB CCL", "24.3.0"), None)
  {
    LeadingCapture(CockroachPattern, "24.3.0", Cockroach2430Tail);
    ParseDbVersionSpec(Cockroach2430, "24.3.0");
  }
}
