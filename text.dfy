/**
 * Pure string rules shared by the exporter and the importer: prefix and
 * suffix tests, Python's `str.split` on one separator character, the
 * self-project qualifier stripping of exporter.py (`str.replace(p, "")`),
 * and the cross-project reference detector (the regular expression
 * `` `([^`]+)\.\w+\.\w+` `` under `re.findall`).
 */
module Text {
  import opened Common

  predicate StartsWith(s: string, prefix: string)
  {
    |prefix| <= |s| && s[..|prefix|] == prefix
  }

  predicate EndsWith(s: string, suffix: string)
  {
    |suffix| <= |s| && s[|s| - |suffix|..] == suffix
  }

  lemma StartsWithAppend(a: string, b: string)
    ensures StartsWith(a + b, a)
  {
    assert (a + b)[..|a|] == a;
  }

  lemma EndsWithAppend(a: string, b: string)
    ensures EndsWith(a + b, b)
  {
    assert (a + b)[|a|..] == b;
  }

  /** `pattern` occurs in `s` starting at index `i`. */
  predicate OccursAt(s: string, pattern: string, i: int)
  {
    0 <= i && i + |pattern| <= |s| && s[i..i + |pattern|] == pattern
  }

  // ---------------------------------------------------------------------
  // Qualifier stripping
  // ---------------------------------------------------------------------

  /**
   * Python's `s.replace(pattern, "")` for a non-empty pattern: the scan
   * goes left to right and removes every non-overlapping occurrence.
   */
  function RemoveAll(s: string, pattern: string): (r: string)
    requires |pattern| > 0
    ensures |r| <= |s|
    ensures |r| == |s| ==> r == s
    decreases |s|
  {
    if |s| < |pattern| then s
    else if s[..|pattern|] == pattern then RemoveAll(s[|pattern|..], pattern)
    else
      var rest := RemoveAll(s[1..], pattern);
      assert |rest| == |s| - 1 ==> [s[0]] + rest == s by {
        if |rest| == |s| - 1 {
          assert s == [s[0]] + s[1..];
        }
      }
      [s[0]] + rest
  }

  /** `text.replace(f"{project_id}.", "")`, as applied to view queries, routine bodies and scheduled queries. */
  function StripQualifier(text: string, projectId: string): string
  {
    RemoveAll(text, projectId + ".")
  }

  /** Stripping the qualifier never lengthens the text, and a text it does not shorten comes back unchanged. */
  lemma StripQualifierShortens(text: string, projectId: string)
    ensures |StripQualifier(text, projectId)| <= |text|
    ensures |StripQualifier(text, projectId)| == |text| ==> StripQualifier(text, projectId) == text
  {
  }

  /** Text in which the pattern does not occur is returned unchanged. */
  lemma {:induction false} RemoveAllWithoutOccurrence(s: string, pattern: string)
    requires |pattern| > 0
    requires forall i :: !OccursAt(s, pattern, i)
    ensures RemoveAll(s, pattern) == s
  {
    if |s| >= |pattern| {
      assert !OccursAt(s, pattern, 0);
      forall i | OccursAt(s[1..], pattern, i)
        ensures OccursAt(s, pattern, i + 1)
      {
        assert s[1..][i..i + |pattern|] == s[i + 1..i + 1 + |pattern|];
      }
      RemoveAllWithoutOccurrence(s[1..], pattern);
      assert [s[0]] + s[1..] == s;
    }
  }

  /** A query or body that never mentions `{project_id}.` is left as it is. */
  lemma StripWithoutQualifierIsIdentity(text: string, projectId: string)
    requires forall i :: !OccursAt(text, projectId + ".", i)
    ensures StripQualifier(text, projectId) == text
  {
    RemoveAllWithoutOccurrence(text, projectId + ".");
  }

  /** Text before the first possible start of an occurrence is kept as it is. */
  lemma {:induction false} RemoveAllSkipsPrefix(a: string, b: string, pattern: string)
    requires |pattern| > 0 && pattern[0] !in a
    ensures RemoveAll(a + b, pattern) == a + RemoveAll(b, pattern)
    decreases |a|
  {
    if |a| > 0 {
      var s := a + b;
      assert s[0] == a[0] && a[0] in a;
      if |s| >= |pattern| {
        assert s[..|pattern|][0] == a[0];
        assert s[1..] == a[1..] + b;
        RemoveAllSkipsPrefix(a[1..], b, pattern);
        assert [a[0]] + a[1..] == a;
      } else {
        assert b == [] || |b| < |pattern|;
      }
    } else {
      assert a + b == b;
    }
  }

  /** A leading occurrence is removed and the scan resumes right after it. */
  lemma RemoveAllLeading(pattern: string, b: string)
    requires |pattern| > 0
    ensures RemoveAll(pattern + b, pattern) == RemoveAll(b, pattern)
  {
    assert (pattern + b)[..|pattern|] == pattern;
    assert (pattern + b)[|pattern|..] == b;
  }

  /** When the pattern's first character is absent, the pattern does not occur. */
  lemma FirstCharAbsent(s: string, pattern: string)
    requires |pattern| > 0 && pattern[0] !in s
    ensures forall i :: !OccursAt(s, pattern, i)
  {
  }

  /**
   * A self-qualified reference `` `{project_id}.rest `` loses its project
   * part, as long as nothing before it can start an occurrence and the
   * rest holds none.
   */
  lemma StripSelfQualifiedReference(a: string, projectId: string, rest: string)
    requires (projectId + ".")[0] !in a + "`"
    requires forall i :: !OccursAt(rest, projectId + ".", i)
    ensures StripQualifier(a + "`" + projectId + "." + rest, projectId) == a + "`" + rest
  {
    var p := projectId + ".";
    assert a + "`" + projectId + "." + rest == (a + "`") + (p + rest);
    RemoveAllSkipsPrefix(a + "`", p + rest, p);
    RemoveAllLeading(p, rest);
    RemoveAllWithoutOccurrence(rest, p);
  }

  /** The worked example: a self-qualified table reference loses its project part. */
  lemma StripSelfReferenceExample(query: string)
    requires query == "SELECT * FROM `proj1.ds1.t1`"
    ensures StripQualifier(query, "proj1") == "SELECT * FROM `ds1.t1`"
  {
    var a, rest := "SELECT * FROM ", "ds1.t1`";
    assert query == a + "`" + "proj1" + "." + rest;
    assert ("proj1" + ".")[0] == 'p';
    assert 'p' !in a + "`";
    FirstCharAbsent(rest, "proj1.");
    StripSelfQualifiedReference(a, "proj1", rest);
    assert a + "`" + rest == "SELECT * FROM `ds1.t1`";
  }

  /** Stripping is not idempotent: a removal can bring a new occurrence together. */
  lemma StripIsNotIdempotent()
    ensures StripQualifier("aa..", "a") == "a."
    ensures StripQualifier(StripQualifier("aa..", "a"), "a") == ""
  {
    var p := "a.";
    assert "aa.."[..2] != p by { assert "aa.."[1] == 'a'; }
    assert "aa.."[1..] == p + ".";
    RemoveAllLeading(p, ".");
    assert RemoveAll(".", p) == ".";
    assert RemoveAll("aa..", p) == ['a'] + RemoveAll("aa.."[1..], p);
    assert ['a'] + "." == "a.";
    assert p + [] == p;
    RemoveAllLeading(p, []);
  }

  /**
   * The replacement is not anchored at an identifier boundary: inside a
   * reference, a name that ends in the project id loses that suffix too.
   */
  lemma StripRemovesEmbeddedProjectId(projectId: string, prefix: string, rest: string)
    requires (projectId + ".")[0] !in "`" + prefix
    requires forall i :: !OccursAt(rest, projectId + ".", i)
    ensures StripQualifier("`" + projectId + "." + prefix + projectId + "." + rest, projectId) == "`" + prefix + rest
  {
    var p := projectId + ".";
    assert p[0] !in "`" && p[0] !in prefix;
    var tail := prefix + (p + rest);
    var lead := "`" + p;
    AppendAssoc("`", projectId, ".");
    AppendAssoc(lead + prefix, projectId, ".");
    AppendAssoc(lead + prefix, p, rest);
    AppendAssoc(lead, prefix, p + rest);
    AppendAssoc("`", p, tail);
    SkipThenRemove("`", tail, p);
    SkipThenRemove(prefix, rest, p);
    RemoveAllWithoutOccurrence(rest, p);
    AppendAssoc("`", prefix, rest);
  }

  /** Text free of the pattern's first character, then one occurrence: the text stays and the occurrence goes. */
  lemma SkipThenRemove(a: string, b: string, pattern: string)
    requires |pattern| > 0 && pattern[0] !in a
    ensures RemoveAll(a + (pattern + b), pattern) == a + RemoveAll(b, pattern)
  {
    RemoveAllSkipsPrefix(a, pattern + b, pattern);
    RemoveAllLeading(pattern, b);
  }

  /** Example: in project `prod`, a reference to dataset `old_prod` is corrupted. */
  lemma StripAltersDatasetEndingInProjectId(query: string)
    requires query == "`prod.old_prod.t1`"
    ensures StripQualifier(query, "prod") == "`old_t1`"
  {
    assert query == "`" + "prod" + "." + "old_" + "prod" + "." + "t1`";
    assert ("prod" + ".")[0] == 'p';
    assert 'p' !in "`" + "old_";
    FirstCharAbsent("t1`", "prod.");
    StripRemovesEmbeddedProjectId("prod", "old_", "t1`");
    assert "`" + "old_" + "t1`" == "`old_t1`";
  }

  // ---------------------------------------------------------------------
  // str.split and its inverse
  // ---------------------------------------------------------------------

  /** Index of the first `c` in `s`. */
  function IndexOf(s: string, c: char): (i: nat)
    requires c in s
    ensures i < |s| && s[i] == c && c !in s[..i]
  {
    if s[0] == c then 0
    else
      var j := IndexOf(s[1..], c);
      assert s[..j + 1] == [s[0]] + s[1..][..j];
      j + 1
  }

  lemma {:induction false} IndexOfAfterFreePrefix(x: string, c: char, y: string)
    requires c !in x
    ensures c in x + [c] + y && IndexOf(x + [c] + y, c) == |x|
  {
    var s := x + [c] + y;
    assert s[|x|] == c;
    if |x| > 0 {
      assert s[1..] == x[1..] + [c] + y;
      IndexOfAfterFreePrefix(x[1..], c, y);
    }
  }

  /** Python's `s.split(sep)`: the pieces between separators, at least one. */
  function Split(s: string, sep: char): (parts: seq<string>)
    ensures |parts| >= 1
    ensures forall k :: 0 <= k < |parts| ==> sep !in parts[k]
    ensures sep in s <==> |parts| >= 2
    decreases |s|
  {
    if sep !in s then [s]
    else
      var i := IndexOf(s, sep);
      [s[..i]] + Split(s[i + 1..], sep)
  }

  /** Python's `sep.join(parts)`. */
  function Join(parts: seq<string>, sep: char): string
    requires |parts| >= 1
  {
    if |parts| == 1 then parts[0] else parts[0] + [sep] + Join(parts[1..], sep)
  }

  /** Joining the pieces of a split gives back the text. */
  lemma {:induction false} JoinSplit(s: string, sep: char)
    ensures Join(Split(s, sep), sep) == s
    decreases |s|
  {
    if sep in s {
      var i := IndexOf(s, sep);
      JoinSplit(s[i + 1..], sep);
      assert s == s[..i] + [sep] + s[i + 1..];
    }
  }

  /** Splitting a join of separator-free pieces gives back the pieces. */
  lemma {:induction false} SplitJoin(parts: seq<string>, sep: char)
    requires |parts| >= 1
    requires forall k :: 0 <= k < |parts| ==> sep !in parts[k]
    ensures Split(Join(parts, sep), sep) == parts
  {
    if |parts| > 1 {
      var rest := Join(parts[1..], sep);
      IndexOfAfterFreePrefix(parts[0], sep, rest);
      var s := parts[0] + [sep] + rest;
      assert Join(parts, sep) == s;
      assert s[..|parts[0]|] == parts[0];
      assert s[|parts[0]| + 1..] == rest;
      assert Split(s, sep) == [parts[0]] + Split(rest, sep);
      SplitJoin(parts[1..], sep);
      assert [parts[0]] + parts[1..] == parts;
    } else {
      assert Split(parts[0], sep) == [parts[0]] == parts;
    }
  }

  // ---------------------------------------------------------------------
  // Cross-project reference detection
  // ---------------------------------------------------------------------

  /** The characters `\w` matches (ASCII letters, digits and underscore). */
  predicate IsWordChar(c: char)
  {
    ('a' <= c <= 'z') || ('A' <= c <= 'Z') || ('0' <= c <= '9') || c == '_'
  }

  /** `\w+`: a non-empty run of word characters. */
  predicate IsWord(w: string)
  {
    |w| > 0 && forall i :: 0 <= i < |w| ==> IsWordChar(w[i])
  }

  /** Index of the last `c` in `s`, if any. */
  function LastIndexOf(s: string, c: char): (r: Option<nat>)
    ensures r.None? ==> c !in s
    ensures r.Some? ==> r.value < |s| && s[r.value] == c && c !in s[r.value + 1..]
  {
    if |s| == 0 then None
    else if s[|s| - 1] == c then Some(|s| - 1)
    else
      var r := LastIndexOf(s[..|s| - 1], c);
      assert r.Some? ==> s[r.value + 1..] == s[..|s| - 1][r.value + 1..] + [s[|s| - 1]];
      assert r.None? ==> s == s[..|s| - 1] + [s[|s| - 1]];
      r
  }

  lemma {:induction false} LastIndexOfBeforeFreeSuffix(x: string, c: char, y: string)
    requires c !in y
    ensures LastIndexOf(x + [c] + y, c) == Some(|x|)
    decreases |y|
  {
    var s := x + [c] + y;
    if |y| > 0 {
      assert s[..|s| - 1] == x + [c] + y[..|y| - 1];
      assert s[|s| - 1] == y[|y| - 1];
      LastIndexOfBeforeFreeSuffix(x, c, y[..|y| - 1]);
    }
  }

  lemma NotInPrefix(s: string, c: char, n: nat)
    requires c !in s && n <= |s|
    ensures c !in s[..n]
  {
  }

  /**
   * The capture of `([^`]+)\.\w+\.\w+` against the whole text between an
   * opening backtick and the next backtick: since neither the group nor
   * `\w` admits a backtick, the closing backtick is the next one; since
   * `\w` admits no dot, the two dots are the last two of the segment, and
   * the greedy group is everything before them.
   */
  function QualifierOf(seg: string): (r: Option<string>)
    ensures r.Some? ==> 0 < |r.value| <= |seg| && r.value == seg[..|r.value|]
  {
    match LastIndexOf(seg, '.')
    case None => None
    case Some(d2) =>
      if !IsWord(seg[d2 + 1..]) then None
      else
        match LastIndexOf(seg[..d2], '.')
        case None => None
        case Some(d1) =>
          if d1 > 0 && IsWord(seg[d1 + 1..d2]) then Some(seg[..d1]) else None
  }

  /**
   * `set(re.findall(r'`([^`]+)\.\w+\.\w+`', q))`: the scan tries a match at
   * each backtick; after a match it resumes behind the closing backtick,
   * after a failed attempt at the next character.
   */
  function ProjectsInQuery(q: string): (ids: set<string>)
    ensures forall id :: id in ids ==> |id| > 0 && '`' !in id
    decreases |q|
  {
    if |q| == 0 then {}
    else if q[0] != '`' then ProjectsInQuery(q[1..])
    else
      var rest := q[1..];
      if '`' !in rest then {}
      else
        var k := IndexOf(rest, '`');
        match QualifierOf(rest[..k])
        case Some(g) =>
          NotInPrefix(rest[..k], '`', |g|);
          {g} + ProjectsInQuery(rest[k + 1..])
        case None => ProjectsInQuery(rest)
  }

  /** `log_projects_in_sql_query`: the projects named in the warning, or None when nothing is logged. */
  function LogProjectsInSqlQuery(query: string): (warning: Option<set<string>>)
    ensures warning.Some? <==> ProjectsInQuery(query) != {}
    ensures warning.Some? ==> warning.value == ProjectsInQuery(query)
  {
    var ids := ProjectsInQuery(query);
    if ids != {} then Some(ids) else None
  }

  /** A query without any backtick never produces a warning. */
  lemma {:induction false} NoBacktickNoProjects(q: string)
    requires '`' !in q
    ensures ProjectsInQuery(q) == {}
    decreases |q|
  {
    if |q| > 0 {
      NoBacktickNoProjects(q[1..]);
    }
  }

  /** Plain text before the first backtick does not change what is detected. */
  lemma {:induction false} PlainPrefixIsSkipped(a: string, q: string)
    requires '`' !in a
    ensures ProjectsInQuery(a + q) == ProjectsInQuery(q)
    decreases |a|
  {
    if |a| == 0 {
      assert a + q == q;
    } else {
      var s := a + q;
      assert s[0] == a[0] && a[0] in a;
      assert s[1..] == a[1..] + q;
      assert ProjectsInQuery(s) == ProjectsInQuery(s[1..]);
      PlainPrefixIsSkipped(a[1..], q);
    }
  }

  /** A word contains no character outside `\w`. */
  lemma WordExcludes(w: string, c: char)
    requires IsWord(w) && !IsWordChar(c)
    ensures c !in w
  {
  }

  /** The group of a `project.dataset.table` segment is its project part. */
  lemma QualifierOfReference(project: string, ds: string, table: string)
    requires |project| > 0
    requires IsWord(ds) && IsWord(table)
    ensures QualifierOf(project + "." + ds + "." + table) == Some(project)
  {
    WordExcludes(ds, '.');
    WordExcludes(table, '.');
    var seg := project + "." + ds + "." + table;
    var head := project + "." + ds;
    assert seg == head + ['.'] + table;
    LastIndexOfBeforeFreeSuffix(head, '.', table);
    var d2 := |head|;
    assert LastIndexOf(seg, '.') == Some(d2);
    assert seg[d2 + 1..] == table;
    assert seg[..d2] == head;
    assert head == project + ['.'] + ds;
    LastIndexOfBeforeFreeSuffix(project, '.', ds);
    assert LastIndexOf(seg[..d2], '.') == Some(|project|);
    assert seg[|project| + 1..d2] == ds;
    assert seg[..|project|] == project;
  }

  /** One step of the scan at an opening backtick that has a closing one. */
  lemma ProjectsAtBacktick(q: string, seg: string, after: string)
    requires q == "`" + seg + "`" + after && '`' !in seg
    ensures ProjectsInQuery(q) ==
      match QualifierOf(seg)
      case Some(g) => {g} + ProjectsInQuery(after)
      case None => ProjectsInQuery(seg + "`" + after)
  {
    var rest := q[1..];
    assert rest == seg + ['`'] + after;
    IndexOfAfterFreePrefix(seg, '`', after);
    assert rest[..|seg|] == seg;
    assert rest[|seg| + 1..] == after;
  }

  /** A segment whose capture is `project` reports exactly `project` when quoted alone. */
  lemma DetectsSegment(seg: string, project: string)
    requires '`' !in seg && QualifierOf(seg) == Some(project)
    ensures ProjectsInQuery("`" + seg + "`") == {project}
  {
    ProjectsAtBacktick("`" + seg + "`" + "", seg, "");
    assert "`" + seg + "`" + "" == "`" + seg + "`";
  }

  /**
   * A backtick-quoted `project.dataset.table` reference after plain text
   * reports exactly its project part.
   */
  lemma DetectsQualifiedReference(a: string, project: string, ds: string, table: string)
    requires '`' !in a
    requires |project| > 0 && '`' !in project
    requires IsWord(ds) && IsWord(table)
    ensures ProjectsInQuery(a + ("`" + (project + "." + ds + "." + table) + "`")) == {project}
  {
    WordExcludes(ds, '`');
    WordExcludes(table, '`');
    var seg := project + "." + ds + "." + table;
    QualifierOfReference(project, ds, table);
    DetectsSegment(seg, project);
    PlainPrefixIsSkipped(a, "`" + seg + "`");
  }
}
