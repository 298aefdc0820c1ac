/**
 The identity a run writes into a Lease, "<Kind>/<Name>/<UID>", and the parser
 that reads it back.
 */
module Holders {
  import opened Common

  datatype Holder = Holder(kind: string, name: string, uid: string)

  /** A holder whose identity can be read back: no part is empty, and the kind
      and the name hold no slash. A UID may hold one. */
  predicate WellFormed(h: Holder) {
    && h.kind != "" && '/' !in h.kind
    && h.name != "" && '/' !in h.name
    && h.uid != ""
  }

  function Identity(h: Holder): string {
    h.kind + "/" + h.name + "/" + h.uid
  }

  /** What an operator reads in a Lease. */
  lemma IdentityReads()
    ensures Identity(Holder("RestoreRun", "back", "1f2e")) == "RestoreRun/back/1f2e"
  {
  }

  /** The index of the first slash, or the length of the text without one. */
  function FirstSlash(s: string): (k: nat)
    ensures k <= |s|
    ensures '/' !in s[..k]
    ensures k < |s| ==> s[k] == '/'
  {
    if s == "" || s[0] == '/' then 0 else 1 + FirstSlash(s[1..])
  }

  /** Splits a text at its first n - 1 slashes. */
  function SplitN(s: string, n: nat): (parts: seq<string>)
    requires n >= 1
    ensures 1 <= |parts| <= n
  {
    var k := FirstSlash(s);
    if n == 1 || k == |s| then [s] else [s[..k]] + SplitN(s[k + 1..], n - 1)
  }

  function ParseHolder(identity: string): Option<Holder> {
    var parts := SplitN(identity, 3);
    if |parts| != 3 || parts[0] == "" || parts[1] == "" || parts[2] == "" then
      None
    else
      Some(Holder(parts[0], parts[1], parts[2]))
  }

  lemma {:induction false} FirstSlashOfJoin(a: string, b: string)
    requires '/' !in a
    ensures FirstSlash(a + "/" + b) == |a|
  {
    var s := a + "/" + b;
    if a == "" {
      assert s[0] == '/';
    } else {
      assert s[0] == a[0] && a[0] in a;
      assert s[1..] == a[1..] + "/" + b;
      FirstSlashOfJoin(a[1..], b);
    }
  }

  lemma SplitOfJoin(a: string, b: string, n: nat)
    requires '/' !in a && n >= 2
    ensures SplitN(a + "/" + b, n) == [a] + SplitN(b, n - 1)
  {
    FirstSlashOfJoin(a, b);
    var s := a + "/" + b;
    assert s[..|a|] == a;
    assert s[|a| + 1..] == b;
  }

  /** Parsing inverts rendering for the well-formed holders, and for no other. */
  lemma ParseInvertsIdentity(h: Holder)
    ensures ParseHolder(Identity(h)) == Some(h) <==> WellFormed(h)
  {
    if '/' !in h.kind && '/' !in h.name {
      var rest := h.name + "/" + h.uid;
      assert Identity(h) == h.kind + "/" + rest;
      SplitOfJoin(h.kind, rest, 3);
      SplitOfJoin(h.name, h.uid, 2);
    } else if ParseHolder(Identity(h)) == Some(h) {
      IdentityInvertsParse(Identity(h));
    }
  }

  /** A text that splits is its first part, a slash, and the text the other
      parts come from. */
  lemma SplitHead(s: string, n: nat) returns (rest: string)
    requires n >= 2 && |SplitN(s, n)| > 1
    ensures '/' !in SplitN(s, n)[0]
    ensures s == SplitN(s, n)[0] + "/" + rest
    ensures SplitN(s, n) == [SplitN(s, n)[0]] + SplitN(rest, n - 1)
  {
    var k := FirstSlash(s);
    rest := s[k + 1..];
    assert s == s[..k] + "/" + rest;
  }

  /** Rendering inverts parsing on every text that parses. */
  lemma IdentityInvertsParse(s: string)
    ensures ParseHolder(s).Some? ==> WellFormed(ParseHolder(s).value) && Identity(ParseHolder(s).value) == s
  {
    if ParseHolder(s).Some? {
      var parts := SplitN(s, 3);
      var rest := SplitHead(s, 3);
      var last := SplitHead(rest, 2);
      assert SplitN(last, 1) == [last];
      assert parts == [parts[0], parts[1], last];
    }
  }

  /** Two runs that can be told apart are told apart by their identities. */
  lemma IdentityInjective(g: Holder, h: Holder)
    requires WellFormed(g) && WellFormed(h) && Identity(g) == Identity(h)
    ensures g == h
  {
    ParseInvertsIdentity(g);
    ParseInvertsIdentity(h);
  }
}
