/** Directory paths of the backup options: the per-character validation applied
    to a proposed path and the slash normalisation applied before it is stored.

    A path is read as a list of components separated by '/'. Normalising keeps
    the non-empty components and joins them with single slashes, which strips
    leading and trailing slashes and collapses every run of slashes to one. */
module Paths {

  import opened Wrappers

  /** The characters a stored directory path may contain. */
  predicate IsPathChar(c: char) {
    ('a' <= c <= 'z') || ('A' <= c <= 'Z') || ('0' <= c <= '9') || c == '/' || c == '-'
  }

  /** A path is acceptable when it holds no character outside IsPathChar. */
  predicate AllowedPath(s: string) {
    forall i :: 0 <= i < |s| ==> IsPathChar(s[i])
  }

  /** No component of a split path contains a slash. */
  predicate SlashFree(s: string) {
    forall i :: 0 <= i < |s| ==> s[i] != '/'
  }

  /** The canonical form of a stored path: no leading slash, no trailing slash,
      no two slashes in a row. */
  predicate Canonical(s: string) {
    (|s| > 0 ==> s[0] != '/' && s[|s| - 1] != '/') &&
    forall i :: 0 <= i < |s| - 1 ==> !(s[i] == '/' && s[i + 1] == '/')
  }

  /** The components of s between slashes, empty ones included, as splitting on
      '/' gives them: "a//b/" splits into "a", "", "b", "". */
  function Split(s: string): (segs: seq<string>)
    ensures |segs| >= 1
    ensures forall k :: 0 <= k < |segs| ==> SlashFree(segs[k])
  {
    if s == [] then [[]]
    else if s[0] == '/' then [[]] + Split(s[1..])
    else AddToFirst(s[0], Split(s[1..]))
  }

  /** The components with c put in front of the first one. */
  function AddToFirst(c: char, segs: seq<string>): (r: seq<string>)
    requires |segs| >= 1
    ensures |r| == |segs| && r[0] == [c] + segs[0] && r[1..] == segs[1..]
  {
    [[c] + segs[0]] + segs[1..]
  }

  /** The components joined with one slash between neighbours. */
  function Join(segs: seq<string>): string {
    if |segs| == 0 then []
    else if |segs| == 1 then segs[0]
    else segs[0] + ['/'] + Join(segs[1..])
  }

  /** The non-empty components, in their order. */
  function NonEmpty(segs: seq<string>): (r: seq<string>)
    ensures forall k :: 0 <= k < |r| ==> r[k] != [] && r[k] in segs
  {
    if segs == [] then []
    else if segs[0] == [] then NonEmpty(segs[1..])
    else [segs[0]] + NonEmpty(segs[1..])
  }

  /** The directory names a path denotes. */
  function Components(s: string): seq<string> {
    NonEmpty(Split(s))
  }

  /** The stored form of a path: its components joined by single slashes. */
  function Normalize(s: string): string {
    Join(Components(s))
  }

  // ---------------------------------------------------------------------------
  // Split and Join are inverse to each other

  lemma {:induction false} JoinSplit(s: string)
    ensures Join(Split(s)) == s
  {
    if s == [] {
    } else if s[0] == '/' {
      JoinSplit(s[1..]);
      assert s == ['/'] + s[1..];
    } else {
      JoinSplit(s[1..]);
      var rest := Split(s[1..]);
      if |rest| == 1 {
        assert Join(Split(s)) == [s[0]] + rest[0];
      } else {
        assert Join(rest) == rest[0] + ['/'] + Join(rest[1..]);
        assert Join(Split(s)) == ([s[0]] + rest[0]) + ['/'] + Join(rest[1..]);
      }
      assert s == [s[0]] + s[1..];
    }
  }

  /** Splitting a slash-free word gives that word back as the one component. */
  lemma {:induction false} SplitSlashFree(a: string)
    requires SlashFree(a)
    ensures Split(a) == [a]
  {
    if a != [] {
      SplitSlashFree(a[1..]);
      assert a == [a[0]] + a[1..];
    }
  }

  /** A slash-free word followed by a slash is the first component. */
  lemma {:induction false} SplitAfterWord(a: string, t: string)
    requires SlashFree(a)
    ensures Split(a + ['/'] + t) == [a] + Split(t)
  {
    var s := a + ['/'] + t;
    if a == [] {
      assert s[1..] == t;
    } else {
      SplitAfterWord(a[1..], t);
      assert s[1..] == a[1..] + ['/'] + t;
      assert [a[0]] + a[1..] == a;
    }
  }

  lemma {:induction false} SplitJoin(segs: seq<string>)
    requires |segs| >= 1
    requires forall k :: 0 <= k < |segs| ==> SlashFree(segs[k])
    ensures Split(Join(segs)) == segs
  {
    if |segs| == 1 {
      SplitSlashFree(segs[0]);
    } else {
      SplitJoin(segs[1..]);
      SplitAfterWord(segs[0], Join(segs[1..]));
      assert segs == [segs[0]] + segs[1..];
    }
  }

  // ---------------------------------------------------------------------------
  // Facts about NonEmpty

  lemma {:induction false} NonEmptyKeepsNonEmpty(segs: seq<string>)
    requires forall k :: 0 <= k < |segs| ==> segs[k] != []
    ensures NonEmpty(segs) == segs
  {
    if segs != [] {
      NonEmptyKeepsNonEmpty(segs[1..]);
      assert segs == [segs[0]] + segs[1..];
    }
  }

  /** Every component of a path without double and trailing slashes is
      non-empty, except a first one in front of a leading slash. */
  lemma {:induction false} SplitSegmentsNonEmpty(s: string)
    requires forall i :: 0 <= i < |s| - 1 ==> !(s[i] == '/' && s[i + 1] == '/')
    requires |s| > 0 ==> s[|s| - 1] != '/'
    ensures forall k :: 1 <= k < |Split(s)| ==> Split(s)[k] != []
    ensures |s| > 0 && s[0] != '/' ==> Split(s)[0] != []
  {
    if s != [] {
      var t := s[1..];
      assert forall i :: 0 <= i < |t| - 1 ==> !(t[i] == '/' && t[i + 1] == '/') by {
        forall i | 0 <= i < |t| - 1 ensures !(t[i] == '/' && t[i + 1] == '/') {
          assert t[i] == s[i + 1] && t[i + 1] == s[i + 2];
        }
      }
      SplitSegmentsNonEmpty(t);
      if s[0] == '/' {
        assert |s| >= 2 && s[1] != '/';
      }
    }
  }

  // ---------------------------------------------------------------------------
  // Joining non-empty slash-free components gives a canonical path

  lemma {:induction false} JoinCanonical(segs: seq<string>)
    requires forall k :: 0 <= k < |segs| ==> segs[k] != [] && SlashFree(segs[k])
    ensures Canonical(Join(segs))
    ensures |segs| > 0 ==> |Join(segs)| > 0
  {
    if |segs| >= 2 {
      var a, j := segs[0], Join(segs[1..]);
      JoinCanonical(segs[1..]);
      var s := a + ['/'] + j;
      assert Join(segs) == s;
      forall i | 0 <= i < |s| - 1
        ensures !(s[i] == '/' && s[i + 1] == '/')
      {
        if i < |a| {
          assert s[i] == a[i];
        } else if i == |a| {
          assert s[i + 1] == j[0];
        } else {
          assert s[i] == j[i - |a| - 1] && s[i + 1] == j[i - |a|];
        }
      }
      assert s[0] == a[0];
      assert s[|s| - 1] == j[|j| - 1];
    }
  }

  // ---------------------------------------------------------------------------
  // The properties of Normalize

  /** A normalised path has no leading, trailing or repeated slashes. */
  lemma NormalizeCanonical(s: string)
    ensures Canonical(Normalize(s))
  {
    JoinCanonical(Components(s));
  }

  /** Normalising changes the spelling of a path, never the directories it names. */
  lemma NormalizeKeepsComponents(s: string)
    ensures Components(Normalize(s)) == Components(s)
  {
    var segs := Components(s);
    if segs == [] {
      assert Normalize(s) == [];
      assert Split([]) == [[]];
    } else {
      SplitJoin(segs);
      NonEmptyKeepsNonEmpty(segs);
    }
  }

  /** The paths Normalize leaves alone are exactly the canonical ones. */
  lemma NormalizeFixesExactlyCanonical(s: string)
    ensures Normalize(s) == s <==> Canonical(s)
  {
    if Canonical(s) {
      SplitSegmentsNonEmpty(s);
      if s == [] {
        assert Split(s) == [[]];
      } else {
        NonEmptyKeepsNonEmpty(Split(s));
      }
      JoinSplit(s);
    } else {
      NormalizeCanonical(s);
    }
  }

  /** Normalising twice is normalising once. */
  lemma NormalizeIdempotent(s: string)
    ensures Normalize(Normalize(s)) == Normalize(s)
  {
    NormalizeCanonical(s);
    NormalizeFixesExactlyCanonical(Normalize(s));
  }

  /** Every character of the normalised path occurs in the input, so a path
      that passes validation still passes it once normalised. */
  lemma NormalizeKeepsAllowed(s: string)
    requires AllowedPath(s)
    ensures AllowedPath(Normalize(s))
  {
    SplitChars(s);
    var segs := Components(s);
    forall k | 0 <= k < |segs| ensures AllowedPath(segs[k]) {
      var sp := Split(s);
      assert segs[k] in sp;
      var m :| 0 <= m < |sp| && sp[m] == segs[k];
    }
    JoinAllowed(segs);
  }

  lemma {:induction false} SplitChars(s: string)
    ensures forall k, i :: 0 <= k < |Split(s)| && 0 <= i < |Split(s)[k]| ==> Split(s)[k][i] in s
  {
    if s != [] {
      SplitChars(s[1..]);
    }
  }

  lemma {:induction false} JoinAllowed(segs: seq<string>)
    requires forall k :: 0 <= k < |segs| ==> AllowedPath(segs[k])
    ensures AllowedPath(Join(segs))
  {
    if |segs| >= 2 {
      JoinAllowed(segs[1..]);
    }
  }

  // ---------------------------------------------------------------------------
  // Normalising runs of slashes around directory names

  /** A run of n slashes. */
  function Slashes(n: nat): (r: string)
    ensures |r| == n && forall i :: 0 <= i < n ==> r[i] == '/'
  {
    seq(n, i => '/')
  }

  /** Slashes in front of a path name no directory. */
  lemma {:induction false} ComponentsAfterSlashes(n: nat, t: string)
    ensures Components(Slashes(n) + t) == Components(t)
  {
    if n > 0 {
      var u := Slashes(n - 1) + t;
      assert Slashes(n) + t == [] + ['/'] + u;
      SplitAfterWord([], u);
      assert Split(Slashes(n) + t) == [[]] + Split(u);
      var segs := [[]] + Split(u);
      assert segs[0] == [] && segs[1..] == Split(u);
      assert NonEmpty(segs) == NonEmpty(Split(u));
      ComponentsAfterSlashes(n - 1, t);
    } else {
      assert Slashes(n) + t == t;
    }
  }

  /** A word followed by one or more slashes is the next directory name. */
  lemma ComponentsAfterWord(a: string, n: nat, t: string)
    requires a != [] && SlashFree(a) && n >= 1
    ensures Components(a + Slashes(n) + t) == [a] + Components(t)
  {
    var u := Slashes(n - 1) + t;
    assert a + Slashes(n) + t == a + ['/'] + u;
    SplitAfterWord(a, u);
    var segs := [a] + Split(u);
    assert segs[0] == a && segs[1..] == Split(u);
    assert NonEmpty(segs) == [a] + NonEmpty(Split(u));
    ComponentsAfterSlashes(n - 1, t);
  }

  /** Leading and trailing runs of slashes are stripped and a run between two
      names becomes a single slash. */
  lemma NormalizeStripsAndCollapses(a: string, b: string, i: nat, j: nat, k: nat)
    requires a != [] && SlashFree(a) && b != [] && SlashFree(b) && j >= 1
    ensures Normalize(Slashes(i) + a + Slashes(j) + b + Slashes(k)) == a + ['/'] + b
  {
    var tail := b + Slashes(k);
    assert Slashes(i) + a + Slashes(j) + b + Slashes(k) == Slashes(i) + (a + Slashes(j) + tail);
    ComponentsAfterSlashes(i, a + Slashes(j) + tail);
    ComponentsAfterWord(a, j, tail);
    if k == 0 {
      SplitSlashFree(b);
      assert tail == b;
      assert [b][1..] == [];
      assert NonEmpty([b]) == [b];
    } else {
      assert tail == b + Slashes(k) + [];
      ComponentsAfterWord(b, k, []);
      assert Split([]) == [[]];
      assert Components(tail) == [b];
    }
    assert Components(Slashes(i) + a + Slashes(j) + b + Slashes(k)) == [a, b];
    assert [a, b][1..] == [b];
    assert Join([a, b]) == a + ['/'] + Join([b]);
  }

  // ---------------------------------------------------------------------------
  // Validation of a proposed path

  /** The per-field error reported for a rejected path. */
  datatype FieldError = FieldError(original: string, message: string)

  const InvalidPathMessage: string :=
    "Invalid directory path. Path must only contain alphanumeric characters and the forward slash ('/') to separate directories."

  /** A proposed path is either rejected, with the raw input and the fixed
      message, or accepted in its normalised form. */
  function ValidatePath(raw: string): (r: Result<string, FieldError>)
    ensures r.Success? <==> AllowedPath(raw)
    ensures r.Failure? ==> r.error == FieldError(raw, InvalidPathMessage)
    ensures r.Success? ==> AllowedPath(r.value) && Canonical(r.value)
    ensures r.Success? ==> Components(r.value) == Components(raw)
  {
    if AllowedPath(raw) then
      NormalizeKeepsAllowed(raw);
      NormalizeCanonical(raw);
      NormalizeKeepsComponents(raw);
      Success(Normalize(raw))
    else
      Failure(FieldError(raw, InvalidPathMessage))
  }

}
