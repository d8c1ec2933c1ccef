/** What the application does to codes, addresses and names, over ASCII. */
module Text {

  predicate IsSpace(c: char) { c == ' ' || '\t' <= c <= '\r' || '\U{001C}' <= c <= '\U{001F}' }

  function StripLeft(s: string): string {
    if s != "" && IsSpace(s[0]) then StripLeft(s[1..]) else s
  }

  function StripRight(s: string): string {
    if s != "" && IsSpace(s[|s| - 1]) then StripRight(s[..|s| - 1]) else s
  }

  function Strip(s: string): string { StripRight(StripLeft(s)) }

  function UpperChar(c: char): char {
    if 'a' <= c <= 'z' then (c as int - 'a' as int + 'A' as int) as char else c
  }

  function LowerChar(c: char): char {
    if 'A' <= c <= 'Z' then (c as int - 'A' as int + 'a' as int) as char else c
  }

  function Upper(s: string): string {
    seq(|s|, i requires 0 <= i < |s| => UpperChar(s[i]))
  }

  function Lower(s: string): string {
    seq(|s|, i requires 0 <= i < |s| => LowerChar(s[i]))
  }

  /** split("@", 1)[0] */
  function BeforeAt(s: string): string {
    if s == "" || s[0] == '@' then "" else [s[0]] + BeforeAt(s[1..])
  }

  function Digit(n: nat): char
    requires n < 10
  {
    ('0' as int + n) as char
  }

  function Decimal(n: nat): string {
    if n < 10 then [Digit(n)] else Decimal(n / 10) + [Digit(n % 10)]
  }

  // ----- What they come to -----

  const CAPITALS := "ABCDEFGHIJKLMNOPQRSTUVWXYZ"
  const SMALLS := "abcdefghijklmnopqrstuvwxyz"

  /** Letter by letter, and nothing but letters. */
  lemma CaseOf(c: char)
    ensures |CAPITALS| == |SMALLS| == 26
    ensures forall i :: 0 <= i < 26 ==> LowerChar(CAPITALS[i]) == SMALLS[i] && UpperChar(SMALLS[i]) == CAPITALS[i]
    ensures LowerChar(c) != c <==> c in CAPITALS
    ensures UpperChar(c) != c <==> c in SMALLS
  {
    assert forall i :: 0 <= i < 26 ==> CAPITALS[i] as int == 65 + i;
    assert forall i :: 0 <= i < 26 ==> SMALLS[i] as int == 97 + i;
    if 'A' <= c <= 'Z' {
      assert CAPITALS[c as int - 65] == c;
    }
    if 'a' <= c <= 'z' {
      assert SMALLS[c as int - 97] == c;
    }
  }

  const SPACES := " \t\n\U{000B}\U{000C}\r\U{001C}\U{001D}\U{001E}\U{001F}"

  lemma SpaceIs(c: char)
    ensures IsSpace(c) <==> c in SPACES
  {
    assert SPACES[0] == ' ' && SPACES[1] as int == 9 && SPACES[2] as int == 10;
    assert SPACES[3] as int == 11 && SPACES[4] as int == 12 && SPACES[5] as int == 13;
    assert SPACES[6] as int == 28 && SPACES[7] as int == 29 && SPACES[8] as int == 30 && SPACES[9] as int == 31;
    if '\t' <= c <= '\r' {
      assert SPACES[c as int - 8] == c;
    }
    if '\U{001C}' <= c <= '\U{001F}' {
      assert SPACES[c as int - 22] == c;
    }
  }

  predicate Blank(s: string) {
    forall c :: c in s ==> c in SPACES
  }

  /** No space at either end. */
  predicate Tight(s: string) {
    s != "" ==> s[0] !in SPACES && s[|s| - 1] !in SPACES
  }

  /** Stripping takes away spaces at the ends, all of them and nothing else. */
  lemma StripIs(s: string) returns (pre: string, post: string)
    ensures s == pre + Strip(s) + post && Blank(pre) && Blank(post) && Tight(Strip(s))
  {
    pre := StripLeftIs(s);
    post := StripRightIs(StripLeft(s));
    if Strip(s) != "" {
      SpaceIs(Strip(s)[0]);
      SpaceIs(Strip(s)[|Strip(s)| - 1]);
      assert Strip(s)[0] == StripLeft(s)[0];
    }
  }

  lemma {:induction false} StripLeftIs(s: string) returns (pre: string)
    ensures s == pre + StripLeft(s) && Blank(pre) && (StripLeft(s) != "" ==> !IsSpace(StripLeft(s)[0]))
  {
    pre := "";
    if s != "" && IsSpace(s[0]) {
      SpaceIs(s[0]);
      var rest := StripLeftIs(s[1..]);
      pre := [s[0]] + rest;
    }
  }

  lemma {:induction false} StripRightIs(s: string) returns (post: string)
    ensures s == StripRight(s) + post && Blank(post)
    ensures StripRight(s) != "" ==> !IsSpace(StripRight(s)[|StripRight(s)| - 1])
  {
    post := "";
    if s != "" && IsSpace(s[|s| - 1]) {
      SpaceIs(s[|s| - 1]);
      var rest := StripRightIs(s[..|s| - 1]);
      post := rest + [s[|s| - 1]];
    }
  }

  /** So spaces around a text make no difference to it stripped. */
  lemma {:induction false} StripForgets(pre: string, s: string, post: string)
    requires Blank(pre) && Blank(post) && Tight(s)
    ensures Strip(pre + s + post) == s
    decreases |pre| + |post|
  {
    if pre != "" {
      SpaceIs(pre[0]);
      assert (pre + s + post)[1..] == pre[1..] + s + post;
      StripForgets(pre[1..], s, post);
    } else if s == "" {
      assert pre + s + post == post;
      BlankStrips(post);
    } else {
      SpaceIs(s[0]);
      assert pre + s + post == s + post && StripLeft(s + post) == s + post;
      StripRightForgets(s, post);
    }
  }

  lemma {:induction false} BlankStrips(s: string)
    requires Blank(s)
    ensures StripLeft(s) == ""
  {
    if s != "" {
      SpaceIs(s[0]);
      BlankStrips(s[1..]);
    }
  }

  lemma {:induction false} StripRightForgets(s: string, post: string)
    requires s != "" && Tight(s) && Blank(post)
    ensures StripRight(s + post) == s
  {
    if post == "" {
      assert s + post == s;
      SpaceIs(s[|s| - 1]);
    } else {
      SpaceIs(post[|post| - 1]);
      assert (s + post)[..|s + post| - 1] == s + post[..|post| - 1];
      StripRightForgets(s, post[..|post| - 1]);
    }
  }

  /** The part before the first at-sign, or all there is. */
  lemma {:induction false} BeforeAtIs(s: string)
    ensures '@' !in BeforeAt(s) && (BeforeAt(s) == s || BeforeAt(s) + "@" <= s)
  {
    if s != "" && s[0] != '@' {
      BeforeAtIs(s[1..]);
    }
  }

  /** The number a numeral stands for. */
  function Value(s: string): int {
    if s == "" then 0 else Value(s[..|s| - 1]) * 10 + (s[|s| - 1] as int - '0' as int)
  }

  lemma {:induction false} DecimalIs(n: nat)
    ensures Value(Decimal(n)) == n && Decimal(n) != ""
    ensures forall c :: c in Decimal(n) ==> '0' <= c <= '9'
    ensures n > 0 ==> Decimal(n)[0] != '0'
  {
    if n < 10 {
      assert [Digit(n)][..0] == [];
    } else {
      DecimalIs(n / 10);
      assert Decimal(n)[..|Decimal(n)| - 1] == Decimal(n / 10);
    }
  }

  /** Case and spaces around make no difference to a text stripped and capitalised. */
  lemma UpperForgets(pre: string, a: string, b: string, post: string)
    requires Blank(pre) && Blank(post) && Tight(b)
    requires |a| == |b| && forall i :: 0 <= i < |a| ==> LowerChar(a[i]) == LowerChar(b[i])
    ensures Upper(Strip(pre + a + post)) == Upper(b)
    ensures forall c :: c in Upper(b) ==> c !in SMALLS
  {
    assert Tight(a) by {
      if a != "" {
        SpaceCase(a[0], b[0]);
        SpaceCase(a[|a| - 1], b[|b| - 1]);
      }
    }
    StripForgets(pre, a, post);
    assert Upper(a) == Upper(b);
    forall c | c in Upper(b) ensures c !in SMALLS {
      var i :| 0 <= i < |b| && UpperChar(b[i]) == c;
      CaseOf(c);
    }
  }

  lemma SpaceCase(c: char, d: char)
    requires LowerChar(c) == LowerChar(d)
    ensures c in SPACES <==> d in SPACES
  {
    SpaceIs(c);
    SpaceIs(d);
  }
}
