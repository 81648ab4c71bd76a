/**
 * The file-name patterns shared by the argument handler and the runner,
 * each regular expression written out as a string predicate, beside the
 * regular expression read literally (an existential over its groups) and a
 * lemma that the two agree.
 */
module Common {
  import opened Results

  /** What `FILE_PATTERN` demands at the start of a path. */
  const FileScheme: string := "file://"
  /** The prefix the path-extract patterns strip. */
  const FileUriPrefix: string := "file:/"
  const JsonExtension: string := ".json"
  const GuardExtension: string := ".guard"

  /** `.` in a Python regular expression matches anything but a newline. */
  predicate NoNewline(s: string)
  {
    forall i :: 0 <= i < |s| ==> s[i] != '\n'
  }

  predicate NoSlash(s: string)
  {
    forall i :: 0 <= i < |s| ==> s[i] != '/'
  }

  // ---------------------------------------------------------------------
  // FILE_PATTERN = ^(file:\/\/)
  // ---------------------------------------------------------------------

  /** `re.search(FILE_PATTERN, s)` matches iff `s` starts with "file://". */
  predicate FilePattern(s: string)
  {
    |s| >= |FileScheme| && s[..|FileScheme|] == FileScheme
  }

  lemma FilePatternIff(s: string)
    ensures FilePattern(s) <==> exists rest :: s == FileScheme + rest
  {
    if FilePattern(s) {
      assert s == FileScheme + s[|FileScheme|..];
    }
  }

  // ---------------------------------------------------------------------
  // SCHEMA_FILE_PATTERN = ^(.+)\/([^\/]+)(\.json)$
  // GUARD_FILE_PATTERN  = ^(.+)\/([^\/]+)(\.guard)$
  // ---------------------------------------------------------------------

  /** The index of the last '/' in `s`, or -1 when there is none. */
  function LastSlash(s: string): (k: int)
    ensures -1 <= k < |s|
    ensures k >= 0 ==> s[k] == '/'
    ensures forall i :: k < i < |s| ==> s[i] != '/'
  {
    if s == [] then -1
    else if s[|s| - 1] == '/' then |s| - 1
    else LastSlash(s[..|s| - 1])
  }

  /**
   * The file-name shape for a literal extension: the text before `ext` has
   * a last '/', the part before it is non-empty and newline-free, and the
   * part after it is non-empty (it has no '/' by choice of the slash).
   */
  predicate FileShape(s: string, ext: string)
  {
    && |s| >= |ext| && s[|s| - |ext|..] == ext
    && var t := s[..|s| - |ext|];
       var k := LastSlash(t);
       && 1 <= k < |t| - 1
       && NoNewline(t[..k])
  }

  /** The pattern read literally: `s` splits into groups `(.+)`, `/`, `([^/]+)` and the extension. */
  ghost predicate FileShapeSplit(s: string, ext: string)
  {
    exists a, b :: && s == a + "/" + b + ext
                   && |a| >= 1 && NoNewline(a)
                   && |b| >= 1 && NoSlash(b)
  }

  lemma {:induction false} LastSlashBefore(a: string, b: string)
    requires NoSlash(b)
    ensures LastSlash(a + "/" + b) == |a|
  {
    var s := a + "/" + b;
    if b != [] {
      var b' := b[..|b| - 1];
      assert s[..|s| - 1] == a + "/" + b';
      assert s[|s| - 1] == b[|b| - 1];
      LastSlashBefore(a, b');
    }
  }

  lemma FileShapeIff(s: string, ext: string)
    ensures FileShape(s, ext) <==> FileShapeSplit(s, ext)
  {
    if FileShape(s, ext) {
      var t := s[..|s| - |ext|];
      var k := LastSlash(t);
      var a, b := t[..k], t[k + 1..];
      assert t == a + "/" + b;
      assert s == t + ext;
      assert NoSlash(b) by {
        forall i | 0 <= i < |b| ensures b[i] != '/' {
          assert b[i] == t[k + 1 + i];
        }
      }
    }
    if FileShapeSplit(s, ext) {
      var a, b :| && s == a + "/" + b + ext
                  && |a| >= 1 && NoNewline(a)
                  && |b| >= 1 && NoSlash(b);
      var t := s[..|s| - |ext|];
      assert t == a + "/" + b;
      LastSlashBefore(a, b);
      assert t[..|a|] == a;
    }
  }

  /** `s` ends in a newline; Python's `$` may match just before it. */
  predicate EndsInNewline(s: string)
  {
    s != [] && s[|s| - 1] == '\n'
  }

  /** `s` without its final character, the newline `$` may stand before. */
  function Chomp(s: string): string
    requires EndsInNewline(s)
  {
    s[..|s| - 1]
  }

  /**
   * The file-name pattern for `ext` under `re.search`: its `$` matches at
   * the end of the string or just before a newline that ends it.
   */
  predicate FileMatch(s: string, ext: string)
  {
    FileShape(s, ext) || (EndsInNewline(s) && FileShape(Chomp(s), ext))
  }

  lemma FileMatchIff(s: string, ext: string)
    ensures FileMatch(s, ext) <==> FileShapeSplit(s, ext) || exists u :: s == u + "\n" && FileShapeSplit(u, ext)
  {
    FileShapeIff(s, ext);
    if EndsInNewline(s) {
      ChompedSplit(s, ext);
    }
    if exists u :: s == u + "\n" && FileShapeSplit(u, ext) {
      var u :| s == u + "\n" && FileShapeSplit(u, ext);
      SplitChomped(s, u, ext);
    }
  }

  lemma ChompedSplit(s: string, ext: string)
    requires EndsInNewline(s)
    ensures FileShape(Chomp(s), ext) <==> FileShapeSplit(Chomp(s), ext)
    ensures s == Chomp(s) + "\n"
  {
    FileShapeIff(Chomp(s), ext);
  }

  lemma SplitChomped(s: string, u: string, ext: string)
    requires s == u + "\n" && FileShapeSplit(u, ext)
    ensures EndsInNewline(s) && FileShape(Chomp(s), ext)
  {
    assert Chomp(s) == u;
    FileShapeIff(u, ext);
  }

  /** `re.search(SCHEMA_FILE_PATTERN, s)`. */
  predicate SchemaFilePattern(s: string)
  {
    FileMatch(s, JsonExtension)
  }

  /** `re.search(GUARD_FILE_PATTERN, s)`. */
  predicate GuardFilePattern(s: string)
  {
    FileMatch(s, GuardExtension)
  }

  /** The example a trailing newline lets through: the shape holds before it. */
  lemma TrailingNewlineSchemaFile()
    ensures FilePattern("file://d/x.json\n")
    ensures SchemaFilePattern("file://d/x.json\n")
    ensures !FileShape("file://d/x.json\n", JsonExtension)
  {
    var s, u := "file://d/x.json\n", "file://d/x.json";
    assert s[..|FileScheme|] == FileScheme;
    assert EndsInNewline(s) && Chomp(s) == u;
    var t := "file://d/x";
    assert u[|u| - |JsonExtension|..] == JsonExtension;
    assert u[..|u| - |JsonExtension|] == t;
    assert t == "file://d" + "/" + "x";
    LastSlashBefore("file://d", "x");
    assert t[..8] == "file://d";
    assert NoNewline("file://d");
    assert FileShape(u, JsonExtension);
  }

  // ---------------------------------------------------------------------
  // GUARD_EXTENSION = [\s\S]+(.guard), used by is_guard_rule
  // ---------------------------------------------------------------------

  /**
   * `is_guard_rule(s)`: some prefix of `s` ends in "guard" after at least
   * two characters, the one just before "guard" not a newline.
   */
  predicate IsGuardRule(s: string)
  {
    && |s| >= 7
    && ((s[|s| - 5..] == "guard" && s[|s| - 6] != '\n') || IsGuardRule(s[..|s| - 1]))
  }

  /** The pattern read literally: one or more characters, one non-newline, then "guard". */
  ghost predicate GuardSplit(s: string)
  {
    exists x, c, y :: s == x + [c] + "guard" + y && |x| >= 1 && c != '\n'
  }

  /** "guard" at the very end, after a non-newline and at least one more character. */
  lemma GuardSuffixSplit(s: string)
    requires |s| >= 7 && s[|s| - 5..] == "guard" && s[|s| - 6] != '\n'
    ensures GuardSplit(s)
  {
    var n := |s|;
    var x, c := s[..n - 6], s[n - 6];
    assert s == x + [c] + s[n - 5..];
    assert s == x + [c] + "guard" + [];
  }

  /** A split of a prefix is a split of the whole, the rest appended to its tail. */
  lemma GuardSplitExtend(p: string, last: char)
    requires GuardSplit(p)
    ensures GuardSplit(p + [last])
  {
    var x, c, y :| p == x + [c] + "guard" + y && |x| >= 1 && c != '\n';
    assert p + [last] == x + [c] + "guard" + (y + [last]);
  }

  lemma {:induction false} GuardRuleHasSplit(s: string)
    requires IsGuardRule(s)
    ensures GuardSplit(s)
  {
    var n := |s|;
    if s[n - 5..] == "guard" && s[n - 6] != '\n' {
      GuardSuffixSplit(s);
    } else {
      var p := s[..n - 1];
      GuardRuleHasSplit(p);
      GuardSplitExtend(p, s[n - 1]);
      assert s == p + [s[n - 1]];
    }
  }

  lemma {:induction false} SplitIsGuardRule(s: string, x: string, c: char, y: string)
    requires s == x + [c] + "guard" + y && |x| >= 1 && c != '\n'
    ensures IsGuardRule(s)
    decreases |y|
  {
    if y == [] {
      assert s[|s| - 5..] == "guard";
      assert s[|s| - 6] == c;
    } else {
      var p := s[..|s| - 1];
      assert p == x + [c] + "guard" + y[..|y| - 1];
      SplitIsGuardRule(p, x, c, y[..|y| - 1]);
    }
  }

  lemma IsGuardRuleIff(s: string)
    ensures IsGuardRule(s) <==> GuardSplit(s)
  {
    if IsGuardRule(s) {
      GuardRuleHasSplit(s);
    }
    if GuardSplit(s) {
      var x, c, y :| s == x + [c] + "guard" + y && |x| >= 1 && c != '\n';
      SplitIsGuardRule(s, x, c, y);
    }
  }

  /** Without a 'g' there is no "guard". */
  lemma {:induction false} NoGIsNoGuardRule(s: string)
    requires forall i :: 0 <= i < |s| ==> s[i] != 'g'
    ensures !IsGuardRule(s)
  {
    if |s| >= 7 {
      assert s[|s| - 5..][0] == s[|s| - 5];
      NoGIsNoGuardRule(s[..|s| - 1]);
    }
  }

  lemma GuardRuleExamples()
    ensures IsGuardRule("file:/data/sample.guard")
    ensures !IsGuardRule("file:/data/sample.json")
    ensures IsGuardRule("abguard")
    ensures !IsGuardRule(".guard")
  {
    var s := "file:/data/sample.json";
    assert forall i :: 0 <= i < |s| ==> s[i] != 'g';
    NoGIsNoGuardRule(s);
  }

  // ---------------------------------------------------------------------
  // JSON_PATH_EXTRACT_PATTERN  = (^file:/)((.+)(\.json))$
  // GUARD_PATH_EXTRACT_PATTERN = (^file:/)((.+)(\.guard))$
  // ---------------------------------------------------------------------

  /**
   * The path-extract pattern for `ext` with `$` at the very end: "file:/",
   * a non-empty newline-free body, then the extension.
   */
  predicate ExtractsAtEnd(s: string, ext: string)
  {
    var n := |FileUriPrefix|;
    && |s| >= n + 1 + |ext|
    && s[..n] == FileUriPrefix && s[|s| - |ext|..] == ext
    && NoNewline(s[n..|s| - |ext|])
  }

  lemma ExtractsAtEndIff(s: string, ext: string)
    ensures ExtractsAtEnd(s, ext) <==> exists body :: s == FileUriPrefix + body + ext && |body| >= 1 && NoNewline(body)
  {
    var n := |FileUriPrefix|;
    if ExtractsAtEnd(s, ext) {
      assert s == FileUriPrefix + s[n..|s| - |ext|] + ext;
    } else {
      assert forall body :: s == FileUriPrefix + body + ext ==>
        && s[..n] == FileUriPrefix && s[|s| - |ext|..] == ext && body == s[n..|s| - |ext|];
    }
  }

  /** The pattern with `$` just before a final newline. */
  lemma ExtractsBeforeNewlineIff(s: string, ext: string)
    ensures (EndsInNewline(s) && ExtractsAtEnd(Chomp(s), ext)) <==>
      exists body :: s == FileUriPrefix + body + ext + "\n" && |body| >= 1 && NoNewline(body)
  {
    if EndsInNewline(s) {
      ExtractsAtEndIff(Chomp(s), ext);
      assert s == Chomp(s) + "\n";
    }
    assert forall body :: s == FileUriPrefix + body + ext + "\n" ==>
      EndsInNewline(s) && Chomp(s) == FileUriPrefix + body + ext;
  }

  /**
   * Group 2 of the path-extract pattern for `ext`: everything after
   * "file:/" up to the end of the string, or up to a newline that ends it,
   * when a non-empty newline-free body sits between that prefix and the
   * extension; None when the pattern does not match.
   */
  function ExtractPath(s: string, ext: string): (r: Option<string>)
    ensures r.Some? ==> s == FileUriPrefix + r.value || s == FileUriPrefix + r.value + "\n"
    ensures r.Some? ==> |r.value| > |ext| && r.value[|r.value| - |ext|..] == ext
  {
    var n := |FileUriPrefix|;
    if ExtractsAtEnd(s, ext) then
      Some(s[n..])
    else if EndsInNewline(s) && ExtractsAtEnd(Chomp(s), ext) then
      assert s == Chomp(s) + "\n";
      Some(Chomp(s)[n..])
    else
      None
  }

  /** The extract pattern matches, with `$` at the end or before a final newline, exactly when ExtractPath yields a group. */
  lemma ExtractPathMatches(s: string, ext: string)
    ensures ExtractPath(s, ext).Some? <==>
      || (exists body :: s == FileUriPrefix + body + ext && |body| >= 1 && NoNewline(body))
      || (exists body :: s == FileUriPrefix + body + ext + "\n" && |body| >= 1 && NoNewline(body))
  {
    ExtractsAtEndIff(s, ext);
    ExtractsBeforeNewlineIff(s, ext);
  }

  /** A newline-free path that passed the prefix check and the file-name shape always extracts. */
  lemma ValidatedPathExtracts(s: string, ext: string)
    requires FilePattern(s) && FileMatch(s, ext) && NoNewline(s)
    ensures ExtractPath(s, ext) == Some(s[|FileUriPrefix|..])
  {
    var n := |FileUriPrefix|;
    assert !EndsInNewline(s) by {
      if s != [] {
        assert s[|s| - 1] != '\n';
      }
    }
    var body := s[n..|s| - |ext|];
    assert s == FileUriPrefix + body + ext;
    assert NoNewline(body) by {
      forall i | 0 <= i < |body| ensures body[i] != '\n' {
        assert body[i] == s[n + i];
      }
    }
  }

  /** A trailing newline is not part of the extracted group. */
  lemma TrailingNewlineExtracts()
    ensures ExtractPath("file://d/x.json\n", JsonExtension) == Some("/d/x.json")
  {
    var s := "file://d/x.json\n";
    assert !ExtractsAtEnd(s, JsonExtension) by {
      assert s[|s| - |JsonExtension|..] != JsonExtension;
    }
    assert Chomp(s) == "file://d/x.json";
    assert Chomp(s)[..|FileUriPrefix|] == FileUriPrefix;
    assert Chomp(s)[|Chomp(s)| - |JsonExtension|..] == JsonExtension;
    assert NoNewline(Chomp(s)[|FileUriPrefix|..|Chomp(s)| - |JsonExtension|]);
    assert s[|FileUriPrefix|..|s| - 1] == "/d/x.json";
  }
}
