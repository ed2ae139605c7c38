/**
  The output cleanup of `translate_text`: a decoded translation that begins with the
  mis-decoded pair U+00C2 U+00BF ("Â¿") loses its first character and is then
  left-stripped of whitespace, exactly as Python's `translation[1:].lstrip()`.
*/
module OutputCleanup {

  /** The artifact the cleanup looks for at the start of a decoded string. */
  const ArtifactPrefix: string := "\U{00C2}\U{00BF}"

  /** Python's `str.isspace` for one character: category Zs or bidirectional class WS, B or S. */
  predicate IsSpace(c: char) {
    || '\U{0009}' <= c <= '\U{000D}'
    || '\U{001C}' <= c <= '\U{001F}'
    || c == ' '
    || c == '\U{0085}'
    || c == '\U{00A0}'
    || c == '\U{1680}'
    || '\U{2000}' <= c <= '\U{200A}'
    || c == '\U{2028}'
    || c == '\U{2029}'
    || c == '\U{202F}'
    || c == '\U{205F}'
    || c == '\U{3000}'
  }

  /** Python's `s.startswith(prefix)`. */
  predicate StartsWith(s: string, prefix: string) {
    |prefix| <= |s| && s[..|prefix|] == prefix
  }

  /**
    Python's `s.lstrip()` with no argument: the longest suffix of `s` that does not
    begin with whitespace, everything before it being whitespace.
  */
  function LStrip(s: string): (r: string)
    ensures |r| <= |s| && r == s[|s| - |r|..]
    ensures r == [] || !IsSpace(r[0])
    ensures forall i :: 0 <= i < |s| - |r| ==> IsSpace(s[i])
    decreases |s|
  {
    if |s| > 0 && IsSpace(s[0]) then LStrip(s[1..]) else s
  }

  /** Lines 69-73 of model.py: drop the first character and left-strip, only on the exact prefix. */
  function Cleanup(s: string): (r: string)
    ensures |s| - 1 <= |r| <= |s|
    ensures r == s[|s| - |r|..]
    ensures r == [] <==> s == []
  {
    if StartsWith(s, ArtifactPrefix) then LStrip(s[1..]) else s
  }

  /** The inverted question mark is not whitespace, so `lstrip` stops at it. */
  lemma InvertedQuestionMarkIsNotSpace()
    ensures !IsSpace('\U{00BF}')
  {
  }

  /**
    On the artifact, only the 'Â' goes: the result is the input without its first
    character, one shorter, and still begins with '¿'.
  */
  lemma CleanupDropsOnlyFirstChar(s: string)
    requires StartsWith(s, ArtifactPrefix)
    ensures Cleanup(s) == s[1..]
    ensures |Cleanup(s)| == |s| - 1
    ensures Cleanup(s)[0] == '\U{00BF}'
  {
    assert s[1] == ArtifactPrefix[1] == '\U{00BF}';
    InvertedQuestionMarkIsNotSpace();
  }

  /** Without the exact prefix, the decoded string comes back unchanged. */
  lemma CleanupKeepsOtherStrings(s: string)
    requires !StartsWith(s, ArtifactPrefix)
    ensures Cleanup(s) == s
  {
  }

  /** The artifact anywhere but at the very start is left in place. */
  lemma CleanupIgnoresLaterArtifact(u: string, v: string)
    requires u != [] && u[0] != ArtifactPrefix[0]
    ensures Cleanup(u + ArtifactPrefix + v) == u + ArtifactPrefix + v
  {
    var s := u + ArtifactPrefix + v;
    assert s[0] == u[0];
    CleanupKeepsOtherStrings(s);
  }

  /** The two cleanup cases together, as a definition with no `lstrip` in it. */
  lemma CleanupIsDropOfFirstChar(s: string)
    ensures Cleanup(s) == if StartsWith(s, ArtifactPrefix) then s[1..] else s
  {
    if StartsWith(s, ArtifactPrefix) {
      CleanupDropsOnlyFirstChar(s);
    }
  }

  /** Cleaning a cleaned string changes nothing: its output never begins with 'Â'. */
  lemma CleanupIdempotent(s: string)
    ensures Cleanup(Cleanup(s)) == Cleanup(s)
  {
    if StartsWith(s, ArtifactPrefix) {
      CleanupDropsOnlyFirstChar(s);
      var r := Cleanup(s);
      assert r[0] != ArtifactPrefix[0];
      CleanupKeepsOtherStrings(r);
    } else {
      CleanupKeepsOtherStrings(s);
    }
  }

  /** "Â¿Hola" becomes "¿Hola"; "¿Hola" itself is returned as it is. */
  lemma CleanupHolaExample()
    ensures Cleanup("\U{00C2}\U{00BF}Hola") == "\U{00BF}Hola"
    ensures Cleanup("\U{00BF}Hola") == "\U{00BF}Hola"
  {
    CleanupDropsOnlyFirstChar("\U{00C2}\U{00BF}Hola");
    assert "\U{00C2}\U{00BF}Hola"[1..] == "\U{00BF}Hola";
    CleanupKeepsOtherStrings("\U{00BF}Hola");
  }
}
