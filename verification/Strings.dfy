/** The string operations shared by the browser, the Go server and the runner. */
module Strings {
  import opened Wrappers

  lemma Assoc<T>(a: seq<T>, b: seq<T>, c: seq<T>)
    ensures a + (b + c) == a + b + c
  {}

  lemma SuffixesEqual<T>(a: seq<T>, b: seq<T>, c: seq<T>)
    requires a + b == a + c
    ensures b == c
  {
    assert (a + b)[|a|..] == b && (a + c)[|a|..] == c;
  }

  lemma ConsSlices<T>(x: T, rest: seq<T>, k: nat)
    requires 0 < k <= |rest| + 1
    ensures ([x] + rest)[..k] == [x] + rest[..k - 1] && ([x] + rest)[k..] == rest[k - 1..]
  {}

  lemma ConsTail<T>(a: seq<T>, b: seq<T>)
    requires a != []
    ensures (a + b)[0] == a[0] && (a + b)[1..] == a[1..] + b
  {}

  /** Start of the leftmost occurrence of `sep` in `s`. */
  function Find(s: string, sep: string): (at: Option<nat>)
    requires sep != ""
    ensures at.Some? ==> at.value + |sep| <= |s|
  {
    if sep <= s then Some(0)
    else if s == "" then None
    else
      var rest := Find(s[1..], sep);
      if rest.Some? then Some(rest.value + 1) else None
  }

  predicate Occurs(s: string, sep: string, j: nat)
    requires j <= |s|
  {
    sep <= s[j..]
  }

  /** `Find` returns an occurrence and there is none further left. */
  lemma {:induction false} FindLeast(s: string, sep: string)
    requires sep != ""
    ensures var at := Find(s, sep);
            && (at.Some? ==> Occurs(s, sep, at.value))
            && forall j: nat :: j <= |s| && (at.Some? ==> j < at.value) ==> !Occurs(s, sep, j)
  {
    if !(sep <= s) && s != "" {
      FindLeast(s[1..], sep);
      assert forall j: nat :: 1 <= j <= |s| ==> s[j..] == s[1..][j - 1..];
      var at := Find(s, sep);
      forall j: nat | j <= |s| && (at.Some? ==> j < at.value) ensures !Occurs(s, sep, j) {
        if j > 0 { assert !Occurs(s[1..], sep, j - 1); }
      }
    } else {
      assert s[0..] == s;
    }
  }

  /** The converse: the leftmost occurrence is what `Find` returns. */
  lemma {:induction false} FindIs(s: string, sep: string, k: nat)
    requires sep != "" && k <= |s| && Occurs(s, sep, k)
    requires forall j: nat :: j < k ==> !Occurs(s, sep, j)
    ensures Find(s, sep) == Some(k)
  {
    FindLeast(s, sep);
  }

  /** `s.split(sep)` of JavaScript and `strings.Split(s, sep)` of Go for a non-empty separator. */
  function Split(s: string, sep: string): (parts: seq<string>)
    requires sep != ""
    ensures |parts| >= 1
    decreases |s|
  {
    var at := Find(s, sep);
    if at.None? then [s] else [s[..at.value]] + Split(s[at.value + |sep|..], sep)
  }

  function Join(parts: seq<string>, sep: string): string {
    if parts == [] then ""
    else if |parts| == 1 then parts[0]
    else parts[0] + sep + Join(parts[1..], sep)
  }

  predicate Contains(s: string, sep: string)
    requires sep != ""
  {
    Find(s, sep).Some?
  }

  lemma BeforeIsClean(s: string, sep: string)
    requires sep != "" && Find(s, sep).Some?
    ensures !Contains(s[..Find(s, sep).value], sep)
  {
    var k := Find(s, sep).value;
    FindLeast(s, sep);
    FindLeast(s[..k], sep);
    forall j: nat | j < k ensures !Occurs(s[..k], sep, j) {
      assert s[..k][j..] == s[j..][..k - j];
      assert !Occurs(s, sep, j);
    }
  }

  lemma JoinCons(part: string, rest: seq<string>, sep: string)
    requires rest != []
    ensures Join([part] + rest, sep) == part + sep + Join(rest, sep)
  {
    assert ([part] + rest)[1..] == rest;
  }

  lemma SplitHead(s: string, sep: string) returns (head: string, rest: string)
    requires sep != "" && Contains(s, sep)
    ensures s == head + sep + rest && !Contains(head, sep)
    ensures Split(s, sep) == [head] + Split(rest, sep)
  {
    var k := Find(s, sep).value;
    head, rest := s[..k], s[k + |sep|..];
    FindLeast(s, sep);
    BeforeIsClean(s, sep);
    assert s[k..] == sep + rest;
    assert s == head + s[k..];
  }

  /** Splitting loses nothing and leaves no separator inside a part. */
  lemma {:induction false} JoinSplit(s: string, sep: string)
    requires sep != ""
    ensures Join(Split(s, sep), sep) == s
    ensures forall part :: part in Split(s, sep) ==> !Contains(part, sep)
    decreases |s|
  {
    if Contains(s, sep) {
      var head, rest := SplitHead(s, sep);
      JoinSplit(rest, sep);
      JoinCons(head, Split(rest, sep), sep);
    }
  }

  lemma FindAt(a: string, sep: string, b: string)
    requires sep != "" && sep[0] !in a
    ensures Find(a + sep + b, sep) == Some(|a|)
  {
    var s := a + sep + b;
    assert s[|a|..] == sep + b;
    forall j: nat | j < |a| ensures !Occurs(s, sep, j) {
      assert s[j..][0] == a[j];
    }
    FindIs(s, sep, |a|);
  }

  lemma NotFound(b: string, sep: string)
    requires sep != "" && sep[0] !in b
    ensures !Contains(b, sep)
  {
    FindLeast(b, sep);
    forall j: nat | j < |b| ensures !Occurs(b, sep, j) {
      assert b[j..][0] == b[j];
    }
  }

  lemma SplitCons(a: string, sep: string, b: string)
    requires sep != "" && sep[0] !in a
    ensures Split(a + sep + b, sep) == [a] + Split(b, sep)
  {
    FindAt(a, sep, b);
    assert (a + sep + b)[|a| + |sep|..] == b;
    assert (a + sep + b)[..|a|] == a;
  }

  /** A separator between two texts that cannot start one splits into exactly the two. */
  lemma SplitPair(a: string, sep: string, b: string)
    requires sep != "" && sep[0] !in a && sep[0] !in b
    ensures Split(a + sep + b, sep) == [a, b]
  {
    SplitCons(a, sep, b);
    NotFound(b, sep);
  }

  /** All parts but the last, which a longer text could still extend. */
  function Complete(s: string, sep: string): seq<string>
    requires sep != ""
  {
    var parts := Split(s, sep);
    parts[..|parts| - 1]
  }

  function Remainder(s: string, sep: string): string
    requires sep != ""
  {
    var parts := Split(s, sep);
    parts[|parts| - 1]
  }

  lemma CompleteCons(a: string, sep: string, b: string)
    requires sep != "" && sep[0] !in a
    ensures Complete(a + sep + b, sep) == [a] + Complete(b, sep)
    ensures Remainder(a + sep + b, sep) == Remainder(b, sep)
  {
    SplitCons(a, sep, b);
    var tail := Split(b, sep);
    assert ([a] + tail)[..|tail|] == [a] + tail[..|tail| - 1];
  }

  lemma SplitPoint(s: string, sep: string) returns (head: string, rest: string)
    requires |sep| == 1 && Contains(s, sep)
    ensures s == head + sep + rest && sep[0] !in head
  {
    var k := Find(s, sep).value;
    FindLeast(s, sep);
    head, rest := s[..k], s[k + 1..];
    assert s[k..][0] == sep[0];
    forall j: nat | j < k ensures head[j] != sep[0] {
      assert !Occurs(s, sep, j) && s[j..][0] == head[j];
      assert s[j..][..1] == [head[j]] && sep == [sep[0]];
    }
  }

  lemma Uncontained(s: string, sep: string)
    requires sep != "" && !Contains(s, sep)
    ensures Complete(s, sep) == [] && Remainder(s, sep) == s
  {}

  /** Appending to a text only extends the last part: earlier parts are final. */
  lemma {:induction false} SplitAppend(s: string, t: string, sep: string)
    requires |sep| == 1
    ensures Complete(s + t, sep) == Complete(s, sep) + Complete(Remainder(s, sep) + t, sep)
    ensures Remainder(s + t, sep) == Remainder(Remainder(s, sep) + t, sep)
    decreases |s|
  {
    if Contains(s, sep) {
      var head, rest := SplitPoint(s, sep);
      SplitAppend(rest, t, sep);
      CompleteCons(head, sep, rest);
      CompleteCons(head, sep, rest + t);
      Assoc(head + sep, rest, t);
      Assoc([head], Complete(rest, sep), Complete(Remainder(rest, sep) + t, sep));
    } else {
      Uncontained(s, sep);
    }
  }
}
