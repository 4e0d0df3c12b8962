/**
 * The normalisation applied to a license's text before it is rendered into
 * LICENSE: `text.replace(/\n{3,}/g, '\n\n')`.
 *
 * `Collapse` follows the regular-expression engine: at each position it tries
 * to match three or more newlines (greedily); on a match the whole run becomes
 * two newlines and the scan resumes after it, otherwise one character is kept
 * and the scan moves on. `CapRuns` is an independent, streaming reading of the
 * same rule: a newline is dropped exactly when the two characters before it in
 * the input are newlines.
 */
module LicenseText {

  /** The number of newlines `s` starts with. */
  function LeadingNewlines(s: string): (k: nat)
    ensures k <= |s|
    ensures forall i :: 0 <= i < k ==> s[i] == '\n'
    ensures k < |s| ==> s[k] != '\n'
  {
    if s != [] && s[0] == '\n' then 1 + LeadingNewlines(s[1..]) else 0
  }

  /** `s.replace(/\n{3,}/g, '\n\n')`: never longer than `s`. */
  function Collapse(s: string): (r: string)
    ensures |r| <= |s|
    decreases |s|
  {
    if s == [] then []
    else
      var k := LeadingNewlines(s);
      if k >= 3 then "\n\n" + Collapse(s[k..])
      else [s[0]] + Collapse(s[1..])
  }

  /** Streaming reference: `run` counts the newlines directly before `s` (at most 2). */
  function CapRuns(run: nat, s: string): string
    decreases |s|
  {
    if s == [] then []
    else if s[0] != '\n' then [s[0]] + CapRuns(0, s[1..])
    else if run >= 2 then CapRuns(run, s[1..])
    else "\n" + CapRuns(run + 1, s[1..])
  }

  /** No three consecutive newlines anywhere. */
  predicate NoTripleNewline(s: string) {
    forall i :: 0 <= i && i + 2 < |s| ==> !(s[i] == '\n' && s[i + 1] == '\n' && s[i + 2] == '\n')
  }

  /** The text with its newlines removed. */
  function Strip(s: string): string {
    if s == [] then []
    else (if s[0] == '\n' then [] else [s[0]]) + Strip(s[1..])
  }

  function Newlines(n: nat): (r: string)
    ensures |r| == n && forall i :: 0 <= i < n ==> r[i] == '\n'
  {
    if n == 0 then [] else "\n" + Newlines(n - 1)
  }

  lemma {:induction false} ConsNoTriple(c: char, t: string)
    requires NoTripleNewline(t)
    requires c == '\n' ==> LeadingNewlines(t) <= 1
    ensures NoTripleNewline([c] + t)
  {
    var s := [c] + t;
    forall i | 0 <= i && i + 2 < |s|
      ensures !(s[i] == '\n' && s[i + 1] == '\n' && s[i + 2] == '\n')
    {
      if i > 0 {
        assert s[i] == t[i - 1] && s[i + 1] == t[i] && s[i + 2] == t[i + 1];
      } else if c == '\n' && t[0] == '\n' {
        assert LeadingNewlines(t) == 1 + LeadingNewlines(t[1..]);
        assert t[1] != '\n';
      }
    }
  }

  lemma LeadingNewlinesCons(c: char, t: string)
    ensures LeadingNewlines([c] + t) == if c == '\n' then 1 + LeadingNewlines(t) else 0
  {
    assert ([c] + t)[1..] == t;
  }

  /** The streaming reference never emits three newlines in a row, and after
      `run` newlines it starts with at most `2 - run` more. */
  lemma {:induction false} CapRunsShape(run: nat, s: string)
    requires run <= 2
    ensures NoTripleNewline(CapRuns(run, s))
    ensures LeadingNewlines(CapRuns(run, s)) <= 2 - run
    decreases |s|
  {
    if s != [] {
      var rest := s[1..];
      if s[0] != '\n' {
        CapRunsShape(0, rest);
        ConsNoTriple(s[0], CapRuns(0, rest));
        LeadingNewlinesCons(s[0], CapRuns(0, rest));
      } else if run >= 2 {
        CapRunsShape(run, rest);
      } else {
        CapRunsShape(run + 1, rest);
        ConsNoTriple('\n', CapRuns(run + 1, rest));
        LeadingNewlinesCons('\n', CapRuns(run + 1, rest));
      }
    }
  }

  /** Before a character that is not a newline the count of preceding newlines is irrelevant. */
  lemma CapRunsResets(run: nat, s: string)
    requires LeadingNewlines(s) == 0
    ensures CapRuns(run, s) == CapRuns(0, s)
  {
  }

  /** The streaming reference keeps `min(k, 2 - run)` of a leading run of `k` newlines. */
  lemma {:induction false} CapRunsOverRun(run: nat, s: string)
    requires run <= 2
    ensures var k := LeadingNewlines(s);
      CapRuns(run, s) == Newlines(if 2 - run < k then 2 - run else k) + CapRuns(0, s[k..])
    decreases |s|
  {
    var k := LeadingNewlines(s);
    if k == 0 {
      CapRunsResets(run, s);
    } else {
      var next := if run >= 2 then run else run + 1;
      assert LeadingNewlines(s[1..]) == k - 1;
      CapRunsOverRun(next, s[1..]);
      assert s[1..][k - 1..] == s[k..];
      if run < 2 {
        var m := if 2 - next < k - 1 then 2 - next else k - 1;
        assert Newlines(m + 1) == "\n" + Newlines(m);
      }
    }
  }

  /** The regular-expression replacement and the streaming reference agree. */
  lemma {:induction false} CollapseIsCapRuns(s: string)
    ensures Collapse(s) == CapRuns(0, s)
    decreases |s|
  {
    if s != [] {
      var k := LeadingNewlines(s);
      CapRunsOverRun(0, s);
      if k >= 3 {
        CollapseIsCapRuns(s[k..]);
        assert Newlines(2) == "\n\n";
      } else {
        CollapseIsCapRuns(s[1..]);
        if k > 0 {
          CapRunsOverRun(0, s[1..]);
          assert s[1..][k - 1..] == s[k..];
          assert Newlines(k) == "\n" + Newlines(k - 1);
        }
      }
    }
  }

  /** The normalised license text never holds three consecutive newlines. */
  lemma CollapseNoTripleNewline(s: string)
    ensures NoTripleNewline(Collapse(s))
  {
    CollapseIsCapRuns(s);
    CapRunsShape(0, s);
  }

  lemma {:induction false} StripCapRuns(run: nat, s: string)
    ensures Strip(CapRuns(run, s)) == Strip(s)
    decreases |s|
  {
    if s != [] {
      var rest := s[1..];
      if s[0] != '\n' {
        StripCapRuns(0, rest);
        assert ([s[0]] + CapRuns(0, rest))[1..] == CapRuns(0, rest);
      } else if run >= 2 {
        StripCapRuns(run, rest);
      } else {
        StripCapRuns(run + 1, rest);
        assert ("\n" + CapRuns(run + 1, rest))[1..] == CapRuns(run + 1, rest);
      }
    }
  }

  /** Every character other than a newline survives, in order. */
  lemma CollapseKeepsOtherCharacters(s: string)
    ensures Strip(Collapse(s)) == Strip(s)
  {
    CollapseIsCapRuns(s);
    StripCapRuns(0, s);
  }

  /** A text whose newline runs are all of length one or two is left as it is. */
  lemma {:induction false} CollapseKeepsShortRuns(s: string)
    requires NoTripleNewline(s)
    ensures Collapse(s) == s
    decreases |s|
  {
    if s != [] {
      assert NoTripleNewline(s[1..]) by {
        forall i | 0 <= i && i + 2 < |s| - 1
          ensures !(s[1..][i] == '\n' && s[1..][i + 1] == '\n' && s[1..][i + 2] == '\n')
        {
          assert s[1..][i] == s[i + 1] && s[1..][i + 1] == s[i + 2] && s[1..][i + 2] == s[i + 3];
        }
      }
      CollapseKeepsShortRuns(s[1..]);
    }
  }

  /** Normalising twice is normalising once. */
  lemma CollapseIdempotent(s: string)
    ensures Collapse(Collapse(s)) == Collapse(s)
  {
    CollapseNoTripleNewline(s);
    CollapseKeepsShortRuns(Collapse(s));
  }
}
