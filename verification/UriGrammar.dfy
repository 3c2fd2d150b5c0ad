/** Which texts name a Swarm reference, told by their parts instead of by the steps
    that take them apart. */
module UriGrammar {
  import opened Options
  import opened References

  /** "://" stands at a place. */
  predicate SchemeAt(s: string, i: nat) {
    i + 3 <= |s| && s[i] == ':' && s[i + 1] == '/' && s[i + 2] == '/'
  }

  predicate FirstSchemeAt(s: string, i: nat) {
    SchemeAt(s, i) && forall k :: 0 <= k < i ==> !SchemeAt(s, k)
  }

  ghost predicate NoScheme(s: string) {
    forall k: nat :: !SchemeAt(s, k)
  }

  /** What may stand before a reference: nothing, or a path up to a slash; with a
      scheme it must be a web address with a host's slash behind it. */
  ghost predicate LeadsUp(front: string) {
    front == "" ||
    ( && front[|front| - 1] == '/'
      && (NoScheme(front) || exists i: nat :: FirstSchemeAt(front, i) && WebScheme(front[..i]) && i + 3 < |front|))
  }

  /** The text is a front, the reference, slashes, and a query or a fragment. */
  ghost predicate Spells(uri: string, front: string, reference: string, slashes: string, rest: string) {
    && uri == front + reference + slashes + rest
    && Plain(front) && LeadsUp(front)
    && IsHexReference(reference)
    && (forall i :: 0 <= i < |slashes| ==> slashes[i] == '/')
    && (rest == "" || rest[0] == '?' || rest[0] == '#')
  }

  // ----- The pieces

  lemma {:induction false} SchemeEndIs(s: string)
    ensures SchemeEnd(s).Some? ==> FirstSchemeAt(s, SchemeEnd(s).value)
    ensures SchemeEnd(s).None? ==> NoScheme(s)
    decreases |s|
  {
    if |s| >= 3 {
      assert s[..3] == [s[0], s[1], s[2]];
      if s[..3] != "://" {
        SchemeEndIs(s[1..]);
        forall k: nat | 1 <= k < |s| ensures SchemeAt(s, k) <==> SchemeAt(s[1..], k - 1) {}
      }
    }
  }

  lemma {:induction false} SchemeOnce(s: string, i: nat)
    requires FirstSchemeAt(s, i)
    ensures SchemeEnd(s) == Some(i)
  {
    hide SchemeEnd;
    SchemeEndIs(s);
  }

  lemma {:induction false} SchemeNever(s: string)
    requires NoScheme(s)
    ensures SchemeEnd(s).None?
  {
    hide SchemeEnd;
    SchemeEndIs(s);
  }

  lemma {:induction false} SchemeInFront(front: string, reference: string, i: nat)
    requires '/' !in reference && (front == "" || front[|front| - 1] == '/')
    ensures SchemeAt(front + reference, i) <==> SchemeAt(front, i)
  {
    var s := front + reference;
    forall k | |front| <= k < |s| ensures s[k] != '/' {
      assert s[k] == reference[k - |front|];
      assert reference[k - |front|] in reference;
    }
  }

  lemma {:induction false} SchemeOfFront(front: string, reference: string)
    requires '/' !in reference && (front == "" || front[|front| - 1] == '/')
    ensures SchemeEnd(front + reference) == SchemeEnd(front)
  {
    hide SchemeEnd, SchemeAt;
    var s := front + reference;
    forall i: nat ensures SchemeAt(s, i) <==> SchemeAt(front, i) {
      SchemeInFront(front, reference, i);
    }
    SchemeEndIs(s);
    SchemeEndIs(front);
    if SchemeEnd(front).Some? {
      SchemeOnce(s, SchemeEnd(front).value);
    } else {
      SchemeNever(s);
    }
  }

  lemma {:induction false} QueryCut(s: string) returns (rest: string)
    ensures s == BeforeQuery(s) + rest && Plain(BeforeQuery(s))
    ensures rest == "" || rest[0] == '?' || rest[0] == '#'
    decreases |s|
  {
    rest := s;
    if s != "" && s[0] != '?' && s[0] != '#' {
      rest := QueryCut(s[1..]);
      assert s == [s[0]] + s[1..];
    }
  }

  lemma {:induction false} QueryStops(a: string, rest: string)
    requires Plain(a) && (rest == "" || rest[0] == '?' || rest[0] == '#')
    ensures BeforeQuery(a + rest) == a
    decreases |a|
  {
    if a == "" {
      assert a + rest == rest;
    } else {
      assert (a + rest)[1..] == a[1..] + rest;
      QueryStops(a[1..], rest);
    }
  }

  lemma {:induction false} SlashesCut(s: string) returns (slashes: string)
    ensures s == TrimSlashes(s) + slashes && forall i :: 0 <= i < |slashes| ==> slashes[i] == '/'
    decreases |s|
  {
    slashes := "";
    if s != "" && s[|s| - 1] == '/' {
      var init := s[..|s| - 1];
      slashes := SlashesCut(init);
      slashes := slashes + "/";
      assert s == init + "/";
    }
  }

  lemma {:induction false} SlashesStop(a: string, slashes: string)
    requires (a == "" || a[|a| - 1] != '/') && forall i :: 0 <= i < |slashes| ==> slashes[i] == '/'
    ensures TrimSlashes(a + slashes) == a
    decreases |slashes|
  {
    var s := a + slashes;
    if slashes == "" {
      assert s == a;
    } else {
      assert s[..|s| - 1] == a + slashes[..|slashes| - 1];
      SlashesStop(a, slashes[..|slashes| - 1]);
    }
  }

  lemma {:induction false} LastPart(s: string) returns (front: string)
    ensures s == front + AfterLastSlash(s) && '/' !in AfterLastSlash(s)
    ensures front == "" || front[|front| - 1] == '/'
    decreases |s|
  {
    front := s;
    if s != "" && s[|s| - 1] != '/' {
      front := LastPart(s[..|s| - 1]);
      assert s == s[..|s| - 1] + [s[|s| - 1]];
    }
  }

  lemma {:induction false} LastPartStops(front: string, reference: string)
    requires '/' !in reference && (front == "" || front[|front| - 1] == '/')
    ensures AfterLastSlash(front + reference) == reference
    decreases |reference|
  {
    var s := front + reference;
    if reference == "" {
      assert s == front;
    } else {
      var n := |reference| - 1;
      assert reference[n] in reference;
      assert s[..|s| - 1] == front + reference[..n];
      LastPartStops(front, reference[..n]);
    }
  }

  // ----- Both directions

  /** What the path part of a candidate asks of the front. */
  lemma {:induction false} PathEnds(front: string, reference: string)
    requires IsHexReference(reference) && front != "" && front[|front| - 1] == '/' && LeadsUp(front)
    ensures PathOf(front + reference).Some? && AfterLastSlash(PathOf(front + reference).value) == reference
  {
    hide SchemeEnd, AfterLastSlash, FirstSlash, WebScheme, SchemeAt;
    NoSlash(reference);
    SchemeOfFront(front, reference);
    if NoScheme(front) {
      SchemeNever(front);
      LastPartStops(front, reference);
    } else {
      var i: nat :| FirstSchemeAt(front, i) && WebScheme(front[..i]) && i + 3 < |front|;
      SchemeOnce(front, i);
      HostPath(front, reference, i);
    }
  }

  lemma {:induction false} HostPath(front: string, reference: string, i: nat)
    requires '/' !in reference && i + 3 < |front| && front[|front| - 1] == '/'
    ensures (front + reference)[..i] == front[..i]
    ensures var remainder := (front + reference)[i + 3..];
            && FirstSlash(remainder).Some?
            && AfterLastSlash(remainder[FirstSlash(remainder).value..]) == reference
  {
    hide AfterLastSlash, FirstSlash;
    var remainder := (front + reference)[i + 3..];
    assert remainder == front[i + 3..] + reference;
    assert remainder[|front| - i - 4] == '/';
    var slash := FirstSlash(remainder).value;
    assert remainder[slash..] == front[i + 3 + slash..] + reference;
    LastPartStops(front[i + 3 + slash..], reference);
  }

  /** A text that is spelled so names its reference. */
  lemma {:induction false} SpelledNames(uri: string, front: string, reference: string, slashes: string, rest: string)
    requires Trimmed(uri) && Spells(uri, front, reference, slashes, rest)
    ensures SwarmReference(uri) == Some(reference)
  {
    hide Trimmed, BeforeQuery, TrimSlashes, PathOf, AfterLastSlash, LeadsUp;
    NoSlash(reference);
    HexPlain(reference);
    var candidate := front + reference;
    assert candidate[|candidate| - 1] == reference[|reference| - 1];
    assert reference[|reference| - 1] in reference;
    assert uri == (candidate + slashes) + rest;
    QueryStops(candidate + slashes, rest);
    SlashesStop(candidate, slashes);
    if front == "" {
      assert candidate == reference;
    } else {
      FrontEnds(front);
      assert candidate[|front| - 1] == '/' && !HexDigit('/');
      PathEnds(front, reference);
    }
  }

  lemma {:induction false} FrontEnds(front: string)
    requires LeadsUp(front) && front != ""
    ensures front[|front| - 1] == '/'
  {}

  lemma {:induction false} HexPlain(reference: string)
    requires IsHexReference(reference)
    ensures Plain(reference)
  {
    forall i | 0 <= i < |reference| ensures reference[i] != '?' && reference[i] != '#' {
      assert HexDigit(reference[i]);
    }
  }

  /** A text that names a reference is spelled so. */
  lemma {:induction false} NamesSpelled(uri: string) returns (front: string, slashes: string, rest: string)
    requires SwarmReference(uri).Some?
    ensures Trimmed(uri) && Spells(uri, front, SwarmReference(uri).value, slashes, rest)
  {
    hide Trimmed, BeforeQuery, TrimSlashes, AfterLastSlash, PathOf, LeadsUp;
    rest := QueryCut(uri);
    slashes := SlashesCut(BeforeQuery(uri));
    var candidate := TrimSlashes(BeforeQuery(uri));
    var reference := SwarmReference(uri).value;
    if IsHexReference(candidate) {
      front := "";
      EmptyLeads();
    } else {
      front := FrontOf(candidate, reference);
    }
    assert uri == front + reference + slashes + rest;
    assert forall i :: 0 <= i < |front| ==> front[i] == BeforeQuery(uri)[i];
  }

  lemma {:induction false} EmptyLeads()
    ensures LeadsUp("")
  {}

  lemma {:induction false} FrontOf(candidate: string, reference: string) returns (front: string)
    requires !IsHexReference(candidate) && IsHexReference(reference)
    requires PathOf(candidate).Some? && AfterLastSlash(PathOf(candidate).value) == reference
    ensures candidate == front + reference && LeadsUp(front)
  {
    hide SchemeEnd, AfterLastSlash, FirstSlash, WebScheme, SchemeAt, IsHexReference;
    NoSlash(reference);
    var path := PathOf(candidate).value;
    front := LastPart(path);
    var scheme := SchemeEnd(candidate);
    if scheme.None? {
      assert front == "" ==> candidate == reference;
      SchemeOfFront(front, reference);
      SchemeEndIs(front);
    } else {
      var i := scheme.value;
      var remainder := candidate[i + 3..];
      var slash := FirstSlash(remainder).value;
      assert path == remainder[slash..] && path[0] == '/';
      assert path[0] in path;
      assert front == "" ==> path == reference;
      var whole := candidate[..i + 3 + slash] + front;
      assert candidate == whole + reference;
      assert whole[|whole| - 1] == '/';
      SchemeOfFront(whole, reference);
      SchemeEndIs(whole);
      assert whole[..i] == candidate[..i];
      front := whole;
    }
  }

  /** A text names a reference exactly when it is spelled so. */
  lemma {:induction false} NamesIff(uri: string, reference: string)
    ensures SwarmReference(uri) == Some(reference) <==>
              Trimmed(uri) && exists front, slashes, rest :: Spells(uri, front, reference, slashes, rest)
  {
    hide SwarmReference, Spells, Trimmed;
    if SwarmReference(uri) == Some(reference) {
      var front, slashes, rest := NamesSpelled(uri);
    }
    if Trimmed(uri) && exists front, slashes, rest :: Spells(uri, front, reference, slashes, rest) {
      var front, slashes, rest :| Spells(uri, front, reference, slashes, rest);
      SpelledNames(uri, front, reference, slashes, rest);
    }
  }
}
