/** String.trim and toLowerCase, for ASCII. */
module Text {
  predicate Blank(c: char) {
    c == ' ' || 9 <= c as int <= 13
  }

  function TrimLeft(s: string): string {
    if s != "" && Blank(s[0]) then TrimLeft(s[1..]) else s
  }

  function TrimRight(s: string): string {
    if s != "" && Blank(s[|s| - 1]) then TrimRight(s[..|s| - 1]) else s
  }

  function Lower(s: string): string {
    seq(|s|, i requires 0 <= i < |s| => if 'A' <= s[i] <= 'Z' then (s[i] as int + 32) as char else s[i])
  }

  /** Letter by letter, the capitals of the alphabet become the small ones, and all else stays. */
  lemma LowerLetters(s: string, i: nat)
    requires i < |s|
    ensures |Lower(s)| == |s| && Lower(s)[i] == Lower([s[i]])[0]
    ensures Lower("ABCDEFGHIJKLMNOPQRSTUVWXYZ") == "abcdefghijklmnopqrstuvwxyz"
    ensures s[i] as int < 65 || s[i] as int > 90 ==> Lower(s)[i] == s[i]
  {
  }

  /** Space, tab, line feed, vertical tab, form feed and carriage return. */
  lemma Blanks(c: char)
    ensures Blank(c) <==> c as int in {32, 9, 10, 11, 12, 13}
  {
  }

  predicate AllBlank(s: string) {
    forall i | 0 <= i < |s| :: Blank(s[i])
  }

  /** Nothing is left of a text after trim exactly when it is blank throughout. */
  lemma {:induction false} TrimmedAway(s: string)
    ensures TrimRight(TrimLeft(s)) == "" <==> AllBlank(s)
  {
    LeftTrimmed(s);
    if TrimLeft(s) != "" { RightTrimmed(TrimLeft(s)); }
  }

  lemma {:induction false} LeftTrimmed(s: string)
    ensures TrimLeft(s) == "" <==> AllBlank(s)
    ensures TrimLeft(s) != "" ==> !Blank(TrimLeft(s)[0])
  {
    if s != "" && Blank(s[0]) {
      LeftTrimmed(s[1..]);
      assert forall i | 1 <= i < |s| :: s[i] == s[1..][i - 1];
    }
  }

  lemma {:induction false} RightTrimmed(s: string)
    requires s != "" && !Blank(s[0])
    ensures TrimRight(s) != ""
  {
    if Blank(s[|s| - 1]) { RightTrimmed(s[..|s| - 1]); }
  }
}
