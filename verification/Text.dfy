/** The string helpers of Go's standard library that decide keys and embed texts. */
module Text {

  /** unicode.IsSpace. */
  predicate IsSpace(c: char) {
    var n := c as int;
    || 9 <= n <= 13 || n == 32 || n == 0x85 || n == 0xA0 || n == 0x1680
    || 0x2000 <= n <= 0x200A || n == 0x2028 || n == 0x2029 || n == 0x202F
    || n == 0x205F || n == 0x3000
  }

  function TrimLeft(s: string): (r: string)
    ensures r == "" || !IsSpace(r[0])
  {
    if s != "" && IsSpace(s[0]) then TrimLeft(s[1..]) else s
  }

  function TrimRight(s: string): (r: string)
    ensures r == "" || !IsSpace(r[|r| - 1])
    ensures r <= s
  {
    if s != "" && IsSpace(s[|s| - 1]) then TrimRight(s[..|s| - 1]) else s
  }

  /** strings.TrimSpace: what is left neither starts nor ends with white space. */
  function TrimSpace(s: string): (r: string)
    ensures r != "" ==> !IsSpace(r[0]) && !IsSpace(r[|r| - 1])
  {
    TrimRight(TrimLeft(s))
  }

  /** Postgres' btrim: only the space character is stripped. */
  function Btrim(s: string): string {
    if s != "" && s[0] == ' ' then Btrim(s[1..])
    else if s != "" && s[|s| - 1] == ' ' then Btrim(s[..|s| - 1])
    else s
  }

  predicate Blank(s: string) {
    forall i :: 0 <= i < |s| ==> IsSpace(s[i])
  }

  lemma {:induction false} TrimLeftBlank(s: string)
    ensures TrimLeft(s) == "" <==> Blank(s)
  {
    if s != "" && IsSpace(s[0]) {
      TrimLeftBlank(s[1..]);
      assert forall i :: 0 < i < |s| ==> s[i] == s[1..][i - 1];
    }
  }

  lemma {:induction false} TrimRightBlank(s: string)
    ensures TrimRight(s) == "" <==> Blank(s)
  {
    if s != "" && IsSpace(s[|s| - 1]) {
      TrimRightBlank(s[..|s| - 1]);
      assert forall i :: 0 <= i < |s| - 1 ==> s[i] == s[..|s| - 1][i];
    }
  }

  /** Trimming erases exactly the strings made of white space alone. */
  lemma TrimBlank(s: string)
    ensures TrimSpace(s) == "" <==> Blank(s)
  {
    TrimLeftBlank(s);
    TrimRightBlank(TrimLeft(s));
    var r := TrimLeft(s);
    assert r != "" ==> !IsSpace(r[0]);
  }
}
