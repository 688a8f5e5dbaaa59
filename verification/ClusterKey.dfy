/** The provider's cluster key hashes host and CA with nothing between them. It
    still identifies the endpoint, because a CA is a PEM text or missing. */
module ClusterKey {
  const MARKER := "-----BEGIN"

  /** readClusterKey: the hash of host and CA, written one after the other. */
  function Key(hash: string -> string, host: string, ca: string): string { hash(host + ca) }

  ghost predicate Injective(hash: string -> string) { forall a, b :: hash(a) == hash(b) ==> a == b }

  predicate OccursAt(s: string, i: nat) { i + |MARKER| <= |s| && s[i..i + |MARKER|] == MARKER }

  /** A host name never holds the marker, a CA is empty or begins with it. */
  predicate PlainHost(host: string) { forall i :: 0 <= i < |host| ==> !OccursAt(host, i) }

  predicate PemOrEmpty(ca: string) { ca == "" || MARKER <= ca }

  lemma MarkerAt(s: string, i: nat, k: nat)
    requires OccursAt(s, i) && k < |MARKER|
    ensures s[i + k] == MARKER[k]
  {
    assert s[i..i + |MARKER|][k] == s[i + k];
  }

  /** Two occurrences of the marker are equal or do not overlap. */
  lemma MarkerDoesNotOverlap(s: string, i: nat, j: nat)
    requires OccursAt(s, i) && OccursAt(s, j)
    ensures i < j ==> i + |MARKER| <= j
  {
    // Five dashes, then letters: a shift puts a dash on a letter.
    var d := j - i;
    if 0 < d <= 5 {
      MarkerAt(s, i, 5);
      MarkerAt(s, j, 5 - d);
    } else if 5 < d < |MARKER| {
      MarkerAt(s, i, d);
      MarkerAt(s, j, 0);
    }
  }

  /** If one split has the shorter host, the marker stands inside the other host. */
  lemma MarkerInsideHost(h1: string, c1: string, h2: string, c2: string)
    requires PemOrEmpty(c1) && PemOrEmpty(c2) && h1 + c1 == h2 + c2 && |h1| < |h2|
    ensures OccursAt(h2, |h1|)
  {
    var s := h1 + c1;
    assert s[|h1|..|h1| + |MARKER|] == c1[..|MARKER|];
    if c2 != "" {
      assert s[|h2|..|h2| + |MARKER|] == c2[..|MARKER|];
      MarkerDoesNotOverlap(s, |h1|, |h2|);
    }
    assert h2[|h1|..|h1| + |MARKER|] == s[|h1|..|h1| + |MARKER|];
  }

  lemma HostNoShorter(h1: string, c1: string, h2: string, c2: string)
    requires PlainHost(h2) && PemOrEmpty(c1) && PemOrEmpty(c2) && h1 + c1 == h2 + c2
    ensures |h1| >= |h2|
  {
    if |h1| < |h2| { MarkerInsideHost(h1, c1, h2, c2); }
  }

  /** Equal keys mean equal host and equal CA. */
  lemma KeyIdentifiesEndpoint(hash: string -> string, h1: string, c1: string, h2: string, c2: string)
    requires Injective(hash) && PlainHost(h1) && PlainHost(h2) && PemOrEmpty(c1) && PemOrEmpty(c2)
    ensures Key(hash, h1, c1) == Key(hash, h2, c2) <==> h1 == h2 && c1 == c2
  {
    if Key(hash, h1, c1) == Key(hash, h2, c2) {
      HostNoShorter(h1, c1, h2, c2);
      HostNoShorter(h2, c2, h1, c1);
      assert h1 == (h1 + c1)[..|h1|] == h2 && c1 == (h1 + c1)[|h1|..] == c2;
    }
  }

  /** Without the marker the boundary is lost: the end of a host may pass for a CA. */
  lemma KeysCollideWithoutMarker(hash: string -> string)
    ensures Key(hash, "https://eu:6443", "0") == Key(hash, "https://eu:644", "30")
  {
    assert "https://eu:6443" + "0" == "https://eu:644" + "30";
  }
}
