/** Segment URIs: which Swarm reference a line names, and that a rendered URI
    names the reference it was rendered from. */
module References {
  import opened Options

  // ----- Strings

  predicate Space(c: char) {
    c == ' ' || c == '\t' || c == '\n' || c == '\r' || c == '\U{0B}' || c == '\U{0C}'
  }

  predicate Trimmed(s: string) {
    s == "" || (!Space(s[0]) && !Space(s[|s| - 1]))
  }

  function BeforeQuery(s: string): (r: string) {
    if s == "" || s[0] == '?' || s[0] == '#' then "" else [s[0]] + BeforeQuery(s[1..])
  }

  function TrimSlashes(s: string): (r: string)
    ensures r == "" || r[|r| - 1] != '/'
  {
    if s != "" && s[|s| - 1] == '/' then TrimSlashes(s[..|s| - 1]) else s
  }

  /** Where the first "://" starts. */
  function SchemeEnd(s: string): (r: Option<nat>)
    ensures r.Some? ==> r.value + 3 <= |s|
  {
    if |s| < 3 then None
    else if s[..3] == "://" then Some(0)
    else
      var rest := SchemeEnd(s[1..]);
      if rest.None? then None else Some(rest.value + 1)
  }

  function FirstSlash(s: string): (r: Option<nat>)
    ensures r.Some? ==> r.value < |s| && s[r.value] == '/' && forall i :: 0 <= i < r.value ==> s[i] != '/'
    ensures r.None? ==> '/' !in s
  {
    if s == "" then None
    else if s[0] == '/' then Some(0)
    else
      var rest := FirstSlash(s[1..]);
      if rest.None? then None else Some(rest.value + 1)
  }

  function AfterLastSlash(s: string): string {
    if s == "" || s[|s| - 1] == '/' then "" else AfterLastSlash(s[..|s| - 1]) + [s[|s| - 1]]
  }

  function LowerChar(c: char): char {
    if 'A' <= c <= 'Z' then c - 'A' + 'a' else c
  }

  function Lower(s: string): (r: string)
    ensures |r| == |s| && forall i :: 0 <= i < |s| ==> r[i] == LowerChar(s[i])
  {
    seq(|s|, i requires 0 <= i < |s| => LowerChar(s[i]))
  }

  // ----- References

  predicate HexDigit(c: char) {
    '0' <= c <= '9' || 'a' <= c <= 'f' || 'A' <= c <= 'F'
  }

  predicate IsHexReference(s: string) {
    (|s| == 64 || |s| == 128) && forall i :: 0 <= i < |s| ==> HexDigit(s[i])
  }

  predicate WebScheme(scheme: string) {
    Lower(scheme) == "http" || Lower(scheme) == "https"
  }

  /** The path a candidate's reference is the last part of. */
  function PathOf(candidate: string): Option<string> {
    var scheme := SchemeEnd(candidate);
    if scheme.None? then Some(candidate)
    else if !WebScheme(candidate[..scheme.value]) then None
    else
      var remainder := candidate[scheme.value + 3..];
      var slash := FirstSlash(remainder);
      if slash.None? then None else Some(remainder[slash.value..])
  }

  function SwarmReference(uri: string): (r: Option<string>)
    ensures r.Some? ==> IsHexReference(r.value)
  {
    if !Trimmed(uri) then None
    else
      var candidate := TrimSlashes(BeforeQuery(uri));
      if IsHexReference(candidate) then Some(candidate)
      else
        var path := PathOf(candidate);
        if path.Some? && IsHexReference(AfterLastSlash(path.value)) then Some(AfterLastSlash(path.value)) else None
  }

  // ----- What the pieces do to a rendered URI

  predicate Plain(s: string) {
    forall i :: 0 <= i < |s| ==> s[i] != '?' && s[i] != '#'
  }

  lemma {:induction false} BeforeQueryStops(a: string, query: string)
    requires Plain(a) && query != "" && query[0] == '?'
    ensures BeforeQuery(a + query) == a
    decreases |a|
  {
    if a == "" {
      assert a + query == query;
    } else {
      assert (a + query)[1..] == a[1..] + query;
      BeforeQueryStops(a[1..], query);
    }
  }

  lemma {:induction false} AfterSlash(a: string, reference: string)
    requires '/' !in reference
    ensures AfterLastSlash(a + "/" + reference) == reference
    decreases |reference|
  {
    var s := a + "/" + reference;
    if reference != "" {
      var n := |reference| - 1;
      assert s[..|s| - 1] == a + "/" + reference[..n];
      AfterSlash(a, reference[..n]);
      assert reference[..n] + [reference[n]] == reference;
    }
  }

  lemma {:induction false} NoSlash(reference: string)
    requires IsHexReference(reference)
    ensures '/' !in reference && |reference| >= 64
  {}

  lemma {:induction false} NoSchemeWithoutSlash(s: string)
    requires '/' !in s
    ensures SchemeEnd(s).None?
    decreases |s|
  {
    if |s| >= 3 {
      assert s[1] in s && s[..3][1] == s[1];
      NoSchemeWithoutSlash(s[1..]);
    }
  }

  /** The scheme of a rendered URI is the scheme of its base. */
  lemma {:induction false} SchemeOfBase(b: string, reference: string)
    requires (b == "" || b[|b| - 1] != '/') && '/' !in reference && reference != ""
    ensures SchemeEnd(b + "/" + reference) == SchemeEnd(b)
    decreases |b|
  {
    var s := b + "/" + reference;
    if b == "" {
      assert s == "/" + reference;
      assert s[1..] == reference;
      assert s[0] == '/';
      NoSchemeWithoutSlash(reference);
    } else {
      assert s[1..] == b[1..] + "/" + reference;
      SchemeOfBase(b[1..], reference);
      assert reference[0] in reference;
      assert |b| >= 3 ==> s[..3] == b[..3];
      assert |b| == 2 ==> s[1] == b[1] && s[..3][1] == s[1];
      assert |b| == 1 ==> s[2] == reference[0] && s[..3][2] == s[2];
    }
  }

  /** A rendered URI's path ends in its reference. */
  lemma {:induction false} PathOfRendered(b: string, reference: string)
    requires (b == "" || b[|b| - 1] != '/') && '/' !in reference && reference != ""
    ensures var path := PathOf(b + "/" + reference);
            && (path.Some? <==> SchemeEnd(b).None? || WebScheme(b[..SchemeEnd(b).value]))
            && (path.Some? ==> AfterLastSlash(path.value) == reference)
  {
    hide SchemeEnd, FirstSlash, AfterLastSlash, WebScheme, PathOf;
    var s := b + "/" + reference;
    SchemeOfBase(b, reference);
    if SchemeEnd(b).None? {
      AfterSlash(b, reference);
      PathWithoutScheme(s);
    } else {
      var i := SchemeEnd(b).value;
      SlicesOf(b, reference, i);
      PathWithScheme(s, i, b[i + 3..], reference);
    }
  }

  lemma {:induction false} PathWithoutScheme(s: string)
    requires SchemeEnd(s).None?
    ensures PathOf(s) == Some(s)
  {
    hide SchemeEnd;
  }

  lemma {:induction false} PathWithScheme(s: string, i: nat, front: string, reference: string)
    requires SchemeEnd(s) == Some(i) && s[i + 3..] == front + "/" + reference && '/' !in reference
    ensures PathOf(s).Some? <==> WebScheme(s[..i])
    ensures PathOf(s).Some? ==> AfterLastSlash(PathOf(s).value) == reference
  {
    hide SchemeEnd, FirstSlash, AfterLastSlash, WebScheme;
    RemainderPath(front, reference);
  }

  lemma {:induction false} SlicesOf(b: string, reference: string, i: nat)
    requires i + 3 <= |b|
    ensures (b + "/" + reference)[..i] == b[..i]
    ensures (b + "/" + reference)[i + 3..] == b[i + 3..] + "/" + reference
  {
    assert forall rest: string :: (b + rest)[..i] == b[..i] && (b + rest)[i + 3..] == b[i + 3..] + rest;
    assert b + "/" + reference == b + ("/" + reference);
    assert b[i + 3..] + "/" + reference == b[i + 3..] + ("/" + reference);
  }


  lemma {:induction false} RemainderPath(front: string, reference: string)
    requires '/' !in reference
    ensures var remainder := front + "/" + reference;
            && FirstSlash(remainder).Some?
            && AfterLastSlash(remainder[FirstSlash(remainder).value..]) == reference
  {
    hide FirstSlash, AfterLastSlash;
    var remainder := front + "/" + reference;
    assert remainder[|front|] == '/';
    var slash := FirstSlash(remainder).value;
    assert slash <= |front|;
    assert remainder[slash..] == front[slash..] + "/" + reference;
    AfterSlash(front[slash..], reference);
  }

  /** The URI a segment is rendered with. */
  function RenderedUri(base: string, reference: string, query: string): string {
    TrimSlashes(base) + "/" + reference + query
  }

  lemma {:induction false} TrimmedPlain(base: string)
    requires Plain(base)
    ensures Plain(TrimSlashes(base))
    decreases |base|
  {
    if base != "" && base[|base| - 1] == '/' {
      TrimmedPlain(base[..|base| - 1]);
    }
  }

  /** What a base URI is: one line, without query or fragment, not starting with a space. */
  predicate IsBase(base: string) {
    Plain(base) && '\n' !in base && (base == "" || !Space(base[0]))
  }

  /** A base without a scheme, or with a web scheme. */
  predicate NamesWell(base: string) {
    var b := TrimSlashes(base);
    SchemeEnd(b).None? || WebScheme(b[..SchemeEnd(b).value])
  }

  predicate IsQuery(query: string) {
    query != "" && query[0] == '?' && !Space(query[|query| - 1])
  }

  lemma {:induction false} RenderedTrimmed(base: string, reference: string, query: string)
    requires IsBase(base) && IsQuery(query)
    ensures Trimmed(RenderedUri(base, reference, query))
  {
    TrimSlashesPrefix(base);
    var uri := RenderedUri(base, reference, query);
    assert uri[|uri| - 1] == query[|query| - 1];
    assert uri[0] == if TrimSlashes(base) == "" then '/' else base[0];
  }

  lemma {:induction false} TrimSlashesPrefix(s: string)
    ensures TrimSlashes(s) <= s
    decreases |s|
  {
    if s != "" && s[|s| - 1] == '/' {
      TrimSlashesPrefix(s[..|s| - 1]);
    }
  }

  /** A rendered URI names the reference it was rendered from if its base has no
      scheme or is a web address, and names nothing otherwise. */
  lemma {:induction false} RenderedUriNames(base: string, reference: string, query: string)
    requires IsBase(base) && IsHexReference(reference) && IsQuery(query)
    ensures SwarmReference(RenderedUri(base, reference, query)) == if NamesWell(base) then Some(reference) else None
  {
    hide SchemeEnd, AfterLastSlash, WebScheme, BeforeQuery, PathOf, TrimSlashes, IsHexReference, Trimmed;
    var b := TrimSlashes(base);
    var candidate := b + "/" + reference;
    NoSlash(reference);
    TrimmedPlain(base);
    CandidateOf(b, reference);
    BeforeQueryStops(candidate, query);
    PathOfRendered(b, reference);
    RenderedTrimmed(base, reference, query);
  }

  lemma {:induction false} CandidateOf(b: string, reference: string)
    requires Plain(b) && IsHexReference(reference)
    ensures var candidate := b + "/" + reference;
            Plain(candidate) && TrimSlashes(candidate) == candidate && !IsHexReference(candidate)
  {
    var candidate := b + "/" + reference;
    NoSlash(reference);
    forall i | 0 <= i < |reference| ensures reference[i] != '?' && reference[i] != '#' {
      assert HexDigit(reference[i]);
    }
    assert candidate[|candidate| - 1] == reference[|reference| - 1];
    assert reference[|reference| - 1] in reference;
    assert candidate[|b|] == '/';
  }

  /** A bare reference names itself. */
  lemma {:induction false} HexNamesItself(reference: string)
    requires IsHexReference(reference)
    ensures SwarmReference(reference) == Some(reference)
  {
    NoSlash(reference);
    forall i | 0 <= i < |reference| ensures reference[i] != '?' && reference[i] != '#' && !Space(reference[i]) {
      assert HexDigit(reference[i]);
    }
    WithoutQuery(reference);
    assert reference[|reference| - 1] in reference;
  }

  lemma {:induction false} WithoutQuery(s: string)
    requires Plain(s)
    ensures BeforeQuery(s) == s
    decreases |s|
  {
    if s != "" {
      WithoutQuery(s[1..]);
    }
  }

  /** A reference as playlists keep it. */
  predicate IsLowerReference(reference: string) {
    IsHexReference(reference) && Lower(reference) == reference
  }

  lemma {:induction false} LowerIsLower(reference: string)
    requires IsHexReference(reference)
    ensures IsLowerReference(Lower(reference))
  {
    var r := Lower(reference);
    forall i | 0 <= i < |r| ensures HexDigit(r[i]) && LowerChar(r[i]) == r[i] {
      assert HexDigit(reference[i]);
    }
  }
}
