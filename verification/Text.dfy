/** `str.strip` and `str.lower` on ASCII text. */
module Text {

  predicate IsSpace(c: char) {
    c == ' ' || '\t' <= c <= '\r' || '\U{1c}' <= c <= '\U{1f}'
  }

  function LeftStrip(s: string): string {
    if s != "" && IsSpace(s[0]) then LeftStrip(s[1..]) else s
  }

  function RightStrip(s: string): string {
    if s != "" && IsSpace(s[|s| - 1]) then RightStrip(s[..|s| - 1]) else s
  }

  function Strip(s: string): string {
    RightStrip(LeftStrip(s))
  }

  function Lower(s: string): string {
    seq(|s|, i requires 0 <= i < |s| => if 'A' <= s[i] <= 'Z' then s[i] - 'A' + 'a' else s[i])
  }

  lemma {:induction false} LeftStripStarts(s: string)
    ensures LeftStrip(s) != "" ==> !IsSpace(LeftStrip(s)[0])
  {
    if s == "" || !IsSpace(s[0]) {
    } else {
      LeftStripStarts(s[1..]);
    }
  }

  lemma {:induction false} RightStripEnds(s: string)
    ensures RightStrip(s) <= s
    ensures RightStrip(s) != "" ==> !IsSpace(RightStrip(s)[|RightStrip(s)| - 1])
  {
    if s == "" || !IsSpace(s[|s| - 1]) {
    } else {
      RightStripEnds(s[..|s| - 1]);
    }
  }

  /** Stripping is idempotent. */
  lemma StripTwice(s: string)
    ensures Strip(Strip(s)) == Strip(s)
  {
    LeftStripStarts(s);
    RightStripEnds(LeftStrip(s));
  }

  lemma {:induction false} LeftStripIsSuffix(s: string) returns (k: nat)
    ensures k <= |s| && LeftStrip(s) == s[k..] && forall i | 0 <= i < k :: IsSpace(s[i])
  {
    if s == "" || !IsSpace(s[0]) {
      k := 0;
    } else {
      k := LeftStripIsSuffix(s[1..]);
      k := k + 1;
    }
  }

  lemma {:induction false} RightStripIsPrefix(s: string) returns (k: nat)
    ensures k <= |s| && RightStrip(s) == s[..k] && forall i | k <= i < |s| :: IsSpace(s[i])
  {
    if s == "" || !IsSpace(s[|s| - 1]) {
      k := |s|;
    } else {
      k := RightStripIsPrefix(s[..|s| - 1]);
    }
  }

  /** Stripping takes away exactly the white space at either end. */
  lemma StripIsMiddle(s: string) returns (i: nat, j: nat)
    ensures i <= j <= |s| && Strip(s) == s[i..j]
    ensures forall k | 0 <= k < i || j <= k < |s| :: IsSpace(s[k])
    ensures i < j ==> !IsSpace(s[i]) && !IsSpace(s[j - 1])
  {
    i := LeftStripIsSuffix(s);
    var n := RightStripIsPrefix(s[i..]);
    j := i + n;
    LeftStripStarts(s);
    RightStripEnds(s[i..]);
  }

  /** Nothing is left exactly of white space. */
  lemma StripBlankIff(s: string)
    ensures Strip(s) == "" <==> forall i | 0 <= i < |s| :: IsSpace(s[i])
  {
    var i, j := StripIsMiddle(s);
  }

  /** The white space of ASCII text. */
  lemma SpacesAre(c: char)
    ensures IsSpace(c) <==> c in [' ', '\t', '\n', '\U{b}', '\U{c}', '\r', '\U{1c}', '\U{1d}', '\U{1e}', '\U{1f}']
  {
    var spaces := [' ', '\t', '\n', '\U{b}', '\U{c}', '\r', '\U{1c}', '\U{1d}', '\U{1e}', '\U{1f}'];
    if IsSpace(c) {
      assert c == spaces[0] || c == spaces[1] || c == spaces[2] || c == spaces[3] || c == spaces[4]
             || c == spaces[5] || c == spaces[6] || c == spaces[7] || c == spaces[8] || c == spaces[9];
    }
  }

  const CAPITALS := "ABCDEFGHIJKLMNOPQRSTUVWXYZ"
  const SMALL := "abcdefghijklmnopqrstuvwxyz"

  /** Capitals become the small letters of the alphabet; nothing else changes. */
  lemma LowerIs(s: string, i: nat)
    requires i < |s|
    ensures |Lower(s)| == |s|
    ensures if exists k :: 0 <= k < 26 && s[i] == CAPITALS[k]
            then exists k :: 0 <= k < 26 && s[i] == CAPITALS[k] && Lower(s)[i] == SMALL[k]
            else Lower(s)[i] == s[i]
  {
    if 'A' <= s[i] <= 'Z' {
      var k := s[i] as int - 'A' as int;
      assert CAPITALS[k] == s[i] && SMALL[k] == Lower(s)[i];
    }
  }
}
