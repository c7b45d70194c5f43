/**
 * The string transforms of the firmware's logger (SmokeLog.py): the
 * whitespace condensing applied to every syslog line, and the HTTP status
 * summary. The syslog and stdout writes themselves are not modelled.
 */
module SmokeLog {

  /** Python's str.isspace(): the characters str.split() with no argument splits on. */
  predicate IsSpace(c: char) {
    var n := c as int;
    || (9 <= n <= 13) || (28 <= n <= 32) || n == 0x85 || n == 0xA0 || n == 0x1680
    || (0x2000 <= n <= 0x200A) || n == 0x2028 || n == 0x2029 || n == 0x202F
    || n == 0x205F || n == 0x3000
  }

  /** str.replace("\n", ""): every newline deleted, nothing put in its place. */
  function RemoveNewlines(s: string): (r: string)
    ensures '\n' !in r
    ensures forall c :: c in r <==> c in s && c != '\n'
    ensures |r| <= |s|
  {
    if s == [] then []
    else (if s[0] == '\n' then [] else [s[0]]) + RemoveNewlines(s[1..])
  }

  /** What str.split() yields: a non-empty run of non-whitespace. */
  predicate IsToken(t: string) {
    t != [] && forall i :: 0 <= i < |t| ==> !IsSpace(t[i])
  }

  /** The length of the leading run of non-whitespace characters. */
  function TokenLength(s: string): (n: nat)
    ensures n <= |s|
    ensures forall i :: 0 <= i < n ==> !IsSpace(s[i])
    ensures n < |s| ==> IsSpace(s[n])
  {
    if s == [] || IsSpace(s[0]) then 0 else 1 + TokenLength(s[1..])
  }

  /** str.split(): the maximal runs of non-whitespace, in order. */
  function Split(s: string): (ts: seq<string>)
    ensures forall i :: 0 <= i < |ts| ==> IsToken(ts[i])
    decreases |s|
  {
    if s == [] then []
    else if IsSpace(s[0]) then Split(s[1..])
    else
      var n := TokenLength(s);
      [s[..n]] + Split(s[n..])
  }

  /** "".join(ts): the words run together. */
  function Concat(ts: seq<string>): string {
    if ts == [] then [] else ts[0] + Concat(ts[1..])
  }

  /** The text with every whitespace character deleted. */
  function DeleteSpaces(s: string): string {
    if s == [] then []
    else (if IsSpace(s[0]) then [] else [s[0]]) + DeleteSpaces(s[1..])
  }

  /** " ".join(ts) */
  function Join(ts: seq<string>): string {
    if ts == [] then []
    else if |ts| == 1 then ts[0]
    else ts[0] + " " + Join(ts[1..])
  }

  /** The condensing step: delete newlines, split on whitespace, join with single spaces. */
  function Condense(s: string): string {
    Join(Split(RemoveNewlines(s)))
  }

  /**
   * A condensed line: no leading or trailing whitespace, and every
   * whitespace character is a single space between two tokens.
   */
  predicate Condensed(s: string) {
    forall i :: 0 <= i < |s| && IsSpace(s[i]) ==> s[i] == ' ' && 0 < i < |s| - 1 && !IsSpace(s[i + 1])
  }

  /** syslog_formatted(sender, message): the line sent to syslog. */
  function SyslogFormatted(sender: string, message: string): (r: string)
    ensures '\n' !in r
    ensures Condensed(r)
    ensures Split(r) == Split(RemoveNewlines(sender + ": " + message))
  {
    var ts := Split(RemoveNewlines(sender + ": " + message));
    JoinIsCondensed(ts);
    SplitJoin(ts);
    Join(ts)
  }

  /** pretty_request(status_code, message) */
  function PrettyRequest(statusCode: string, message: string): (r: string)
    ensures |r| == 9 + |statusCode| + |message|
    ensures r[..7] == "Status " && r[7 + |statusCode|..9 + |statusCode|] == ": "
    ensures r[7..7 + |statusCode|] == statusCode && r[9 + |statusCode|..] == message
  {
    "Status " + statusCode + ": " + message
  }

  // ---------------------------------------------------------------------
  // Lemmas

  /** A token followed by nothing or by whitespace is read back whole. */
  lemma {:induction false} TokenLengthOfToken(t: string, rest: string)
    requires IsToken(t)
    requires rest == [] || IsSpace(rest[0])
    ensures TokenLength(t + rest) == |t|
  {
    assert (t + rest)[1..] == t[1..] + rest;
    if |t| > 1 {
      TokenLengthOfToken(t[1..], rest);
    }
  }

  /** A joined token list starts and ends with a token character. */
  lemma {:induction false} JoinEnds(ts: seq<string>)
    requires ts != []
    requires forall i :: 0 <= i < |ts| ==> IsToken(ts[i])
    ensures Join(ts) != []
    ensures !IsSpace(Join(ts)[0])
    ensures !IsSpace(Join(ts)[|Join(ts)| - 1])
  {
    if |ts| > 1 {
      JoinEnds(ts[1..]);
    }
  }

  /** Joining tokens gives a condensed line. */
  lemma {:induction false} JoinIsCondensed(ts: seq<string>)
    requires forall i :: 0 <= i < |ts| ==> IsToken(ts[i])
    ensures Condensed(Join(ts))
  {
    if |ts| > 1 {
      var t, j := ts[0], Join(ts[1..]);
      JoinIsCondensed(ts[1..]);
      JoinEnds(ts[1..]);
      var s := Join(ts);
      assert s == t + " " + j;
      assert forall k :: 0 <= k < |t| ==> s[k] == t[k];
      assert forall k :: |t| < k < |s| ==> s[k] == j[k - |t| - 1];
    }
  }

  /** Splitting a joined token list gives the tokens back. */
  lemma {:induction false} SplitJoin(ts: seq<string>)
    requires forall i :: 0 <= i < |ts| ==> IsToken(ts[i])
    ensures Split(Join(ts)) == ts
  {
    if ts == [] {
    } else if |ts| == 1 {
      var t := ts[0];
      TokenLengthOfToken(t, []);
      assert t + [] == t;
      assert t[..|t|] == t;
      assert t[|t|..] == [];
    } else {
      var t, rest := ts[0], " " + Join(ts[1..]);
      var s := Join(ts);
      assert s == t + rest;
      TokenLengthOfToken(t, rest);
      assert s[..|t|] == t;
      assert s[|t|..] == rest;
      assert Split(rest) == Split(Join(ts[1..])) by {
        assert rest[1..] == Join(ts[1..]);
      }
      SplitJoin(ts[1..]);
    }
  }

  /** Deleting newlines from a line without any changes nothing. */
  lemma {:induction false} RemoveNewlinesNoop(s: string)
    requires '\n' !in s
    ensures RemoveNewlines(s) == s
  {
    if s != [] {
      assert s[0] in s;
      assert forall c :: c in s[1..] ==> c in s;
      RemoveNewlinesNoop(s[1..]);
      assert [s[0]] + s[1..] == s;
    }
  }

  /** Newlines are deleted piecewise, so the order of the other characters is kept. */
  lemma {:induction false} RemoveNewlinesAppend(a: string, b: string)
    ensures RemoveNewlines(a + b) == RemoveNewlines(a) + RemoveNewlines(b)
  {
    if a == [] {
      assert a + b == b;
    } else {
      assert (a + b)[0] == a[0];
      assert (a + b)[1..] == a[1..] + b;
      RemoveNewlinesAppend(a[1..], b);
    }
  }

  /** Every character other than a newline is kept as often as it occurs; newlines are all gone. */
  lemma {:induction false} RemoveNewlinesCounts(s: string)
    ensures multiset(RemoveNewlines(s)) == multiset(s)['\n' := 0]
  {
    if s != [] {
      assert s == [s[0]] + s[1..];
      RemoveNewlinesCounts(s[1..]);
    }
  }

  /** Deleting whitespace from a text that opens with `n` non-whitespace characters keeps them in front. */
  lemma {:induction false} DeleteSpacesPrefix(s: string, n: nat)
    requires n <= |s|
    requires forall i :: 0 <= i < n ==> !IsSpace(s[i])
    ensures DeleteSpaces(s) == s[..n] + DeleteSpaces(s[n..])
  {
    if n == 0 {
      assert s[..0] == [] && s[0..] == s;
    } else {
      DeleteSpacesPrefix(s[1..], n - 1);
      assert s[1..][..n - 1] == s[1..n];
      assert s[1..][n - 1..] == s[n..];
      assert [s[0]] + s[1..n] == s[..n];
    }
  }

  /**
   * str.split() loses only whitespace: its words, run together, are the
   * text with the whitespace deleted, and there are none exactly when the
   * text is all whitespace.
   */
  lemma {:induction false} SplitKeepsText(s: string)
    ensures Concat(Split(s)) == DeleteSpaces(s)
    ensures Split(s) == [] <==> DeleteSpaces(s) == []
    decreases |s|
  {
    if s == [] {
    } else if IsSpace(s[0]) {
      SplitKeepsText(s[1..]);
    } else {
      var n := TokenLength(s);
      var ts := [s[..n]] + Split(s[n..]);
      assert ts[0] == s[..n] && ts[1..] == Split(s[n..]);
      SplitKeepsText(s[n..]);
      DeleteSpacesPrefix(s, n);
      assert s[..n] != [] by { assert s[..n][0] == s[0]; }
    }
  }

  /** A condensed line holds no newline. */
  lemma CondensedHasNoNewline(s: string)
    requires Condensed(s)
    ensures '\n' !in s
  {
    if '\n' in s {
      var i :| 0 <= i < |s| && s[i] == '\n';
      assert IsSpace(s[i]);
    }
  }

  /** Condensing twice is condensing once. */
  lemma CondenseIdempotent(s: string)
    ensures Condense(Condense(s)) == Condense(s)
  {
    var ts := Split(RemoveNewlines(s));
    JoinIsCondensed(ts);
    CondensedHasNoNewline(Join(ts));
    RemoveNewlinesNoop(Join(ts));
    SplitJoin(ts);
  }

  /** Text on the two sides of a newline runs together: "a\nb" becomes "ab". */
  lemma NewlineJoinsText()
    ensures Condense("a\nb") == "ab"
  {
    assert RemoveNewlines("a\nb") == "ab" by {
      assert RemoveNewlines("b") == "b";
      assert RemoveNewlines("\nb") == "b";
    }
    var s := "ab";
    assert TokenLength(s) == 2 by {
      assert TokenLength(s[1..]) == 1;
    }
    assert s[..2] == s;
    assert Split(s) == [s];
  }

  /** A status summary gives back its status code and message when the code holds no colon. */
  lemma PrettyRequestInjective(c1: string, m1: string, c2: string, m2: string)
    requires ':' !in c1 && ':' !in c2
    requires PrettyRequest(c1, m1) == PrettyRequest(c2, m2)
    ensures c1 == c2 && m1 == m2
  {
    var r := PrettyRequest(c1, m1);
    assert r[7 + |c1|] == ':' && r[7 + |c2|] == ':';
    assert forall k :: 0 <= k < |c1| ==> r[7 + k] == c1[k];
    assert forall k :: 0 <= k < |c2| ==> r[7 + k] == c2[k];
    assert |c1| == |c2|;
    assert c1 == r[7..7 + |c1|];
    assert c2 == r[7..7 + |c2|];
    assert m1 == r[9 + |c1|..];
  }
}
