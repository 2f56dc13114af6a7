/**
 * The duplicate-name resolver used before copying a node into a folder
 * (backend/helpers/duplicateNameHelper.js). The remote sibling probe is
 * modelled as membership in `inUse`, the finite set of names of the
 * non-trashed children of the target folder at the time of the call.
 */
module UniqueName {
  import Decimal
  import opened Wrappers

  /**
   * The name probed after `k` collisions: the desired name itself, then
   * "Copy of X", then "Copy (k) of X" for k >= 2, always built from the
   * original name X.
   */
  function Candidate(desired: string, k: nat): (name: string)
    ensures k == 0 ==> name == desired
    ensures k > 0 ==> |name| >= |desired| + 8
  {
    if k == 0 then desired
    else if k == 1 then "Copy of " + desired
    else "Copy (" + Decimal.Digits(k) + ") of " + desired
  }

  /** Every renamed candidate is a fixed prefix, depending only on k, followed by the original name. */
  lemma CandidateBuiltFromOriginal(desired: string, other: string, k: nat)
    requires k >= 1
    ensures |Candidate(desired, k)| > |desired|
    ensures var p := |Candidate(desired, k)| - |desired|;
            Candidate(desired, k)[p..] == desired &&
            Candidate(other, k) == Candidate(desired, k)[..p] + other
  {
  }

  /** The counter shown in a "Copy (k) of X" name is never 1, so "(1)" is never produced. */
  lemma NeverCopyOne(desired: string, k: nat)
    requires k >= 2
    ensures Candidate(desired, k) != "Copy (1) of " + desired
  {
    if Candidate(desired, k) == "Copy (1) of " + desired {
      var c := Candidate(desired, k);
      assert Decimal.Digits(k) == c[6..|c| - |desired| - 5];
      assert Decimal.Digits(1) == c[6..|c| - |desired| - 5];
      Decimal.DigitsInjective(k, 1);
    }
  }

  /** Two digit strings, each followed by ')', that agree from then on are equal. */
  lemma DigitsBeforeParen(x: string, y: string, u: string, v: string)
    requires forall i :: 0 <= i < |x| ==> Decimal.IsDigit(x[i])
    requires forall i :: 0 <= i < |y| ==> Decimal.IsDigit(y[i])
    requires x + ")" + u == y + ")" + v
    ensures x == y
  {
    if |x| < |y| {
      ParenAt(x, u, y, v);
      assert false;
    } else if |y| < |x| {
      ParenAt(y, v, x, u);
      assert false;
    }
    assert x == (x + ")" + u)[..|x|];
  }

  lemma ParenAt(x: string, u: string, y: string, v: string)
    requires |x| < |y| && x + ")" + u == y + ")" + v
    ensures y[|x|] == ')'
  {
    assert (x + ")" + u)[|x|] == ')';
  }

  /** The candidates are pairwise distinct, which is what makes the probe loop terminate. */
  lemma CandidatesDistinct(desired: string, i: nat, j: nat)
    requires i < j
    ensures Candidate(desired, i) != Candidate(desired, j)
  {
    var ci, cj := Candidate(desired, i), Candidate(desired, j);
    if i == 0 {
      assert |ci| < |cj|;
    } else if i == 1 {
      assert ci[5] == 'o' && cj[5] == '(';
    } else if ci == cj {
      var di, dj := Decimal.Digits(i), Decimal.Digits(j);
      assert ci[6..] == di + ")" + (" of " + desired);
      assert cj[6..] == dj + ")" + (" of " + desired);
      DigitsBeforeParen(di, dj, " of " + desired, " of " + desired);
      Decimal.DigitsInjective(i, j);
    }
  }

  /**
   * If the first `k` candidates all collide, the folder already holds at
   * least `k` distinct names: the loop probes at most |inUse| + 1 names.
   */
  lemma {:induction false} CollisionsBounded(desired: string, k: nat, inUse: set<string>)
    requires forall j :: 0 <= j < k ==> Candidate(desired, j) in inUse
    ensures k <= |inUse|
    decreases k
  {
    if k > 0 {
      var last := Candidate(desired, k - 1);
      forall j | 0 <= j < k - 1
        ensures Candidate(desired, j) in inUse - {last}
      {
        CandidatesDistinct(desired, j, k - 1);
      }
      CollisionsBounded(desired, k - 1, inUse - {last});
    }
  }

  // ---------------------------------------------------------------------
  // The probe query and its string literal
  // ---------------------------------------------------------------------

  /** `name.replace(/'/g, "\\'")`: each single quote becomes backslash-quote; nothing else changes. */
  function EscapeQuotes(s: string): (r: string)
    ensures |r| >= |s|
  {
    if s == [] then []
    else (if s[0] == '\'' then "\\'" else [s[0]]) + EscapeQuotes(s[1..])
  }

  /** Escaping for the query language's string literal: both backslash and single quote are escaped. */
  function EscapeLiteral(s: string): (r: string)
    ensures |r| >= |s|
  {
    if s == [] then []
    else (if s[0] == '\'' || s[0] == '\\' then ['\\', s[0]] else [s[0]]) + EscapeLiteral(s[1..])
  }

  /** A name without a single quote passes the as-written escaping unchanged. */
  lemma {:induction false} EscapeQuotesKeepsPlainNames(s: string)
    requires forall i :: 0 <= i < |s| ==> s[i] != '\''
    ensures EscapeQuotes(s) == s
  {
    if s != [] {
      EscapeQuotesKeepsPlainNames(s[1..]);
      assert s == [s[0]] + s[1..];
    }
  }

  /** A name without a single quote or a backslash passes the corrected escaping unchanged. */
  lemma {:induction false} EscapeLiteralKeepsPlainNames(s: string)
    requires forall i :: 0 <= i < |s| ==> s[i] != '\'' && s[i] != '\\'
    ensures EscapeLiteral(s) == s
  {
    if s != [] {
      EscapeLiteralKeepsPlainNames(s[1..]);
      assert s == [s[0]] + s[1..];
    }
  }

  /**
   * Reads the body of a single-quoted literal of the query language (the
   * opening quote already consumed): a backslash takes the next character
   * literally, an unescaped quote ends the literal. Returns the literal's
   * value and the text after the closing quote, or None if it never closes.
   */
  function ReadLiteral(t: string): Option<(string, string)>
    decreases |t|
  {
    if t == [] then None
    else if t[0] == '\'' then Some(([], t[1..]))
    else
      var step := if t[0] == '\\' && |t| >= 2 then 2 else 1;
      if t[0] == '\\' && |t| < 2 then None
      else match ReadLiteral(t[step..])
        case None => None
        case Some(r) => Some(([t[step - 1]] + r.0, r.1))
  }

  /** In the as-written escaping, every single quote of the result is preceded by a backslash. */
  lemma {:induction false} EscapedQuotesArePreceded(s: string, i: nat)
    requires i < |EscapeQuotes(s)| && EscapeQuotes(s)[i] == '\''
    ensures i > 0 && EscapeQuotes(s)[i - 1] == '\\'
  {
    var head := if s[0] == '\'' then "\\'" else [s[0]];
    assert EscapeQuotes(s) == head + EscapeQuotes(s[1..]);
    if i >= |head| {
      EscapedQuotesArePreceded(s[1..], i - |head|);
    }
  }

  /** An ordinary character is read as itself. */
  lemma ReadPlainChar(c: char, tail: string, value: string, after: string)
    requires c != '\'' && c != '\\'
    requires ReadLiteral(tail) == Some((value, after))
    ensures ReadLiteral([c] + tail) == Some(([c] + value, after))
  {
    assert ([c] + tail)[1..] == tail;
  }

  /** A backslash and the character after it are read as that character. */
  lemma ReadEscapedChar(c: char, tail: string, value: string, after: string)
    requires ReadLiteral(tail) == Some((value, after))
    ensures ReadLiteral(['\\', c] + tail) == Some(([c] + value, after))
  {
    assert (['\\', c] + tail)[2..] == tail;
  }

  /** The corrected escaping round-trips through the literal reader, whatever follows the literal. */
  lemma {:induction false} LiteralRoundTrip(s: string, rest: string)
    ensures ReadLiteral(EscapeLiteral(s) + "'" + rest) == Some((s, rest))
  {
    if s == [] {
      assert EscapeLiteral(s) + "'" + rest == "'" + rest;
    } else {
      var c := s[0];
      var head: string := if c == '\'' || c == '\\' then ['\\', c] else [c];
      var tail := EscapeLiteral(s[1..]) + "'" + rest;
      assert EscapeLiteral(s) == head + EscapeLiteral(s[1..]);
      assert EscapeLiteral(s) + "'" + rest == head + tail;
      LiteralRoundTrip(s[1..], rest);
      if c == '\'' || c == '\\' {
        ReadEscapedChar(c, tail, s[1..], rest);
      } else {
        ReadPlainChar(c, tail, s[1..], rest);
      }
      assert [c] + s[1..] == s;
    }
  }

  /**
   * As written, a name made of one backslash is not recovered by the query
   * reader: its escaped form swallows the closing quote and the literal never ends.
   */
  lemma BackslashBreaksLiteral()
    ensures EscapeQuotes("\\") == "\\"
    ensures ReadLiteral(EscapeQuotes("\\") + "'" + "") == None
  {
    assert EscapeQuotes("\\") + "'" + "" == "\\'";
    assert ReadLiteral(""[..]) == None;
    assert "\\'"[2..] == "";
  }

  /** One `files.list` probe: the folder searched and the name asked for. */
  datatype Probe = Probe(parentId: string, name: string)

  /** The query text a probe sends, with the corrected escaping. */
  function ProbeQuery(p: Probe): string {
    "'" + p.parentId + "' in parents and name='" + EscapeLiteral(p.name) + "' and trashed=false"
  }

  /** The name literal inside a probe query reads back as exactly the name probed. */
  lemma ProbeQueryNamesCandidate(p: Probe)
    ensures var prefix := "'" + p.parentId + "' in parents and name='";
            ProbeQuery(p)[..|prefix|] == prefix &&
            ReadLiteral(ProbeQuery(p)[|prefix|..]) == Some((p.name, " and trashed=false"))
  {
    var prefix := "'" + p.parentId + "' in parents and name='";
    var q := ProbeQuery(p);
    assert q == prefix + (EscapeLiteral(p.name) + "'" + " and trashed=false");
    assert q[|prefix|..] == EscapeLiteral(p.name) + "'" + " and trashed=false";
    LiteralRoundTrip(p.name, " and trashed=false");
  }

  /** The query text a probe sends as written, with only single quotes escaped. */
  function ProbeQueryAsWritten(p: Probe): string {
    "'" + p.parentId + "' in parents and name='" + EscapeQuotes(p.name) + "' and trashed=false"
  }

  /**
   * As written, a backslash between two ordinary characters is read as an
   * escape of the second: the literal for `x\y` reads back as `xy`.
   */
  lemma BackslashSwallowed(x: char, y: char, rest: string)
    requires x != '\'' && x != '\\' && y != '\'' && y != '\\'
    ensures ReadLiteral(EscapeQuotes([x, '\\', y]) + "'" + rest) == Some(([x, y], rest))
  {
    var tail := "'" + rest;
    assert EscapeQuotes([y]) == [y] + EscapeQuotes([]);
    assert EscapeQuotes(['\\', y]) == ['\\'] + EscapeQuotes([y]);
    assert EscapeQuotes([x, '\\', y]) == [x] + EscapeQuotes(['\\', y]);
    assert EscapeQuotes([x, '\\', y]) + "'" + rest == [x] + (['\\', y] + tail);
    assert tail[1..] == rest;
    ReadEscapedChar(y, tail, "", rest);
    assert [y] + "" == [y];
    ReadPlainChar(x, ['\\', y] + tail, [y], rest);
    assert [x] + [y] == [x, y];
  }

  /**
   * As written, the probe for a name such as `a\b` asks about another name:
   * the query reader takes the backslash as an escape and reads `ab`, so a
   * folder holding `a\b` but not `ab` reports the name free.
   */
  lemma BackslashNameProbedAsOther(parentId: string, x: char, y: char)
    requires x != '\'' && x != '\\' && y != '\'' && y != '\\'
    ensures var prefix := "'" + parentId + "' in parents and name='";
            var q := ProbeQueryAsWritten(Probe(parentId, [x, '\\', y]));
            && q[..|prefix|] == prefix
            && ReadLiteral(q[|prefix|..]) == Some(([x, y], " and trashed=false"))
            && [x, y] != [x, '\\', y]
  {
    var prefix := "'" + parentId + "' in parents and name='";
    var q := ProbeQueryAsWritten(Probe(parentId, [x, '\\', y]));
    assert q == prefix + (EscapeQuotes([x, '\\', y]) + "'" + " and trashed=false");
    assert q[|prefix|..] == EscapeQuotes([x, '\\', y]) + "'" + " and trashed=false";
    BackslashSwallowed(x, y, " and trashed=false");
  }

  /** The probes for the first n candidates, in the order they are sent. */
  function Probes(parentId: string, desired: string, n: nat): seq<Probe> {
    if n == 0 then [] else Probes(parentId, desired, n - 1) + [Probe(parentId, Candidate(desired, n - 1))]
  }

  /** The j-th probe sent asks the parent folder for the j-th candidate. */
  lemma {:induction false} ProbesInOrder(parentId: string, desired: string, n: nat)
    ensures |Probes(parentId, desired, n)| == n
    ensures forall j :: 0 <= j < n ==> Probes(parentId, desired, n)[j] == Probe(parentId, Candidate(desired, j))
  {
    if n > 0 {
      ProbesInOrder(parentId, desired, n - 1);
    }
  }

  // ---------------------------------------------------------------------
  // The resolver loop
  // ---------------------------------------------------------------------

  /**
   * getUniqueFileName: probes Candidate(desired, 0), Candidate(desired, 1), ...
   * in order and returns the first one that no sibling has. `probes` records
   * the probe sent on each iteration (its query text is ProbeQuery);
   * `collisions` is the final counter.
   */
  method GetUniqueFileName(parentId: string, desiredName: string, inUse: set<string>)
    returns (name: string, probes: seq<Probe>, ghost collisions: nat)
    ensures name !in inUse
    ensures name == Candidate(desiredName, collisions)
    ensures forall j :: 0 <= j < collisions ==> Candidate(desiredName, j) in inUse
    ensures collisions <= |inUse|
    ensures probes == Probes(parentId, desiredName, collisions + 1)
  {
    name := desiredName;
    var counter: nat := 0;
    probes := [];
    while true
      invariant name == Candidate(desiredName, counter)
      invariant forall j :: 0 <= j < counter ==> Candidate(desiredName, j) in inUse
      invariant counter <= |inUse|
      invariant probes == Probes(parentId, desiredName, counter)
      decreases |inUse| - counter
    {
      probes := probes + [Probe(parentId, name)];
      if name !in inUse {
        collisions := counter;
        return;
      }
      CollisionsBounded(desiredName, counter + 1, inUse);
      counter := counter + 1;
      if counter == 1 {
        name := "Copy of " + desiredName;
      } else {
        name := "Copy (" + Decimal.Digits(counter) + ") of " + desiredName;
      }
      assert name == Candidate(desiredName, counter);
    }
  }

  /** The outcome is fully determined: the least candidate not in use. */
  lemma ResultIsLeastFree(desired: string, inUse: set<string>, k: nat, k': nat)
    requires Candidate(desired, k) !in inUse && Candidate(desired, k') !in inUse
    requires forall j :: 0 <= j < k ==> Candidate(desired, j) in inUse
    requires forall j :: 0 <= j < k' ==> Candidate(desired, j) in inUse
    ensures k == k'
  {
  }

  /** The three-step example: "doc.txt", then "Copy of doc.txt", then "Copy (2) of doc.txt". */
  lemma DocCandidates()
    ensures Candidate("doc.txt", 0) == "doc.txt"
    ensures Candidate("doc.txt", 1) == "Copy of doc.txt"
    ensures Candidate("doc.txt", 2) == "Copy (2) of doc.txt"
  {
    assert "Copy of " + "doc.txt" == "Copy of doc.txt";
    assert Decimal.Digits(2) == "2";
    assert "Copy (" + "2" + ") of " + "doc.txt" == "Copy (2) of doc.txt";
  }
}
