/** The few operations of Go's `strings` package that the modelled code relies on.
    A string is a sequence of characters; the proofs need of white space only that
    it contains the blank and the line feed and not '=' or '#'. */
module GoStrings {

  datatype Option<+T> = None | Some(value: T)

  /** `unicode.IsSpace` on the Latin-1 range, plus the wider code points it names. */
  predicate IsSpace(c: char) {
    c == ' ' || '\t' <= c <= '\r' || c == '\U{000085}' || c == '\U{0000A0}' || c == '\U{001680}' ||
    c == '\U{002028}' || c == '\U{002029}' || c == '\U{00202F}' || c == '\U{00205F}' || c == '\U{003000}' ||
    '\U{002000}' <= c <= '\U{00200A}'
  }

  function TrimLeft(s: string): string {
    if s != [] && IsSpace(s[0]) then TrimLeft(s[1..]) else s
  }

  function TrimRight(s: string): string {
    if s != [] && IsSpace(s[|s| - 1]) then TrimRight(s[..|s| - 1]) else s
  }

  function TrimSpace(s: string): string { TrimRight(TrimLeft(s)) }

  lemma {:induction false} TrimLeftSpec(s: string)
    ensures var r := TrimLeft(s);
            && |r| <= |s| && r == s[|s| - |r|..] && (r == [] || !IsSpace(r[0]))
            && forall i :: 0 <= i < |s| - |r| ==> IsSpace(s[i])
  {
    hide IsSpace;
    if s != [] && IsSpace(s[0]) {
      TrimLeftSpec(s[1..]);
      assert forall i :: 0 < i < |s| ==> s[i] == s[1..][i - 1];
    }
  }

  lemma {:induction false} TrimRightSpec(s: string)
    ensures var r := TrimRight(s);
            && r <= s && (r == [] || !IsSpace(r[|r| - 1]))
            && forall i :: |r| <= i < |s| ==> IsSpace(s[i])
  {
    hide IsSpace;
    if s != [] && IsSpace(s[|s| - 1]) {
      TrimRightSpec(s[..|s| - 1]);
      assert forall i :: 0 <= i < |s| - 1 ==> s[i] == s[..|s| - 1][i];
    }
  }

  lemma TrimSpaceIdempotent(s: string)
    ensures TrimSpace(TrimSpace(s)) == TrimSpace(s)
    ensures TrimSpace(s) != [] ==> !IsSpace(TrimSpace(s)[0])
  {
    hide IsSpace;
    TrimLeftSpec(s);
    TrimRightSpec(TrimLeft(s));
    if TrimSpace(s) != [] {
      NothingToTrim(TrimSpace(s));
    } else {
      assert TrimSpace([]) == [];
    }
  }

  predicate Blank(s: string) { forall i :: 0 <= i < |s| ==> IsSpace(s[i]) }

  /** Trimming leaves nothing of white space, and something of everything else. */
  lemma TrimSpaceBlankIff(s: string)
    ensures TrimSpace(s) == "" <==> Blank(s)
  {
    hide IsSpace;
    TrimLeftSpec(s);
    TrimRightSpec(TrimLeft(s));
    if TrimLeft(s) != "" {
      assert s[|s| - |TrimLeft(s)|] == TrimLeft(s)[0];
    }
  }

  lemma NothingToTrim(s: string)
    requires s != "" && !IsSpace(s[0]) && !IsSpace(s[|s| - 1])
    ensures TrimSpace(s) == s
  {
    hide IsSpace;
  }

  predicate HasPrefix(s: string, p: string) { p <= s }

  predicate HasSuffix(s: string, p: string) { |p| <= |s| && s[|s| - |p|..] == p }

  function TrimPrefix(s: string, p: string): string {
    if HasPrefix(s, p) then s[|p|..] else s
  }

  function TrimSuffix(s: string, p: string): string {
    if HasSuffix(s, p) then s[..|s| - |p|] else s
  }

  /** The first position of `c` in `s`, or `|s|`. */
  function IndexOf(s: string, c: char): (i: nat)
    ensures i <= |s|
    ensures forall k :: 0 <= k < i ==> s[k] != c
    ensures i < |s| ==> s[i] == c
  {
    if s == [] || s[0] == c then 0 else IndexOf(s[1..], c) + 1
  }

  predicate Capital(c: char) { 'A' <= c <= 'Z' }

  /** Lowering replaces each capital by the letter 32 places on and keeps the rest. */
  lemma ToLowerIs(s: string, t: string)
    ensures ToLower(s) == t <==>
            |s| == |t| && forall i :: 0 <= i < |s| ==>
              if Capital(s[i]) then t[i] as int == s[i] as int - 'A' as int + 'a' as int else t[i] == s[i]
  {
  }

  function ToLower(s: string): string {
    seq(|s|, i requires 0 <= i < |s| => if 'A' <= s[i] <= 'Z' then ((s[i] as int) + 32) as char else s[i])
  }
}
