/**
 * The dedup ledger's durable form: `seen.txt`, one fingerprint per line,
 * read back with `splitlines()` at start-up and rewritten with
 * `"\n".join(seen)` after a harvest that accepted something.
 */
module Ledger {
  import opened Wrappers
  import opened Text

  /** The fingerprints in the seen file's text, `set(text.splitlines())`, or none when the file is absent. */
  function LoadSeen(file: Option<string>): (keys: set<string>)
    ensures file == None ==> keys == {}
    ensures forall k :: k in keys ==> NoBreak(k)
  {
    match file
    case None => {}
    case Some(text) => set line | line in SplitLines(text)
  }

  /**
   * `"\n".join(seen)`: the set's elements, one per line, in the order the
   * set is iterated (which Python leaves unspecified, so any order may come).
   */
  method Serialise(seen: set<string>) returns (text: string)
    ensures exists lines :: Enumerates(lines, seen) && text == JoinLines(lines)
  {
    var lines: seq<string> := [];
    var rest := seen;
    while rest != {}
      invariant rest <= seen
      invariant forall k :: 0 <= k < |lines| ==> lines[k] in seen && lines[k] !in rest
      invariant forall x :: x in seen && x !in rest ==> x in lines
      invariant forall i, j :: 0 <= i < j < |lines| ==> lines[i] != lines[j]
      decreases |rest|
    {
      var x :| x in rest;
      lines := lines + [x];
      rest := rest - {x};
    }
    text := JoinLines(lines);
    assert Enumerates(lines, seen);
  }

  /**
   * Writing a set of fingerprints and reading the file back recovers the set
   * whenever every fingerprint is a non-empty string without line breaks, as
   * hexadecimal digests are.
   */
  lemma RoundTrip(seen: set<string>, lines: seq<string>)
    requires Enumerates(lines, seen)
    requires forall x :: x in seen ==> IsLine(x)
    ensures LoadSeen(Some(JoinLines(lines))) == seen
  {
    SplitJoin(lines);
  }

  /**
   * An empty fingerprint does not survive: on its own it is written as an
   * empty file, which reads back as no fingerprints at all.
   */
  lemma EmptyKeyLost()
    ensures LoadSeen(Some(JoinLines([""]))) == {}
  {
  }
}
