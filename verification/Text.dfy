/** The string helpers the services use, on ASCII text. */
module Text {

  predicate Space(c: char) {
    c == ' ' || c == '\t' || c == '\n' || c == '\r' || c as int == 11 || c as int == 12
  }

  function TrimLeft(s: string): (r: string)
    ensures |r| <= |s|
    ensures r == "" || !Space(r[0])
  {
    if s != "" && Space(s[0]) then TrimLeft(s[1..]) else s
  }

  function TrimRight(s: string): (r: string)
    ensures |r| <= |s|
    ensures r == "" || !Space(r[|r| - 1])
    ensures r <= s
  {
    if s != "" && Space(s[|s| - 1]) then TrimRight(s[..|s| - 1]) else s
  }

  function Trim(s: string): string {
    TrimRight(TrimLeft(s))
  }

  /** strings.TrimSpace: the text between the first and the last character that is no white space. */
  lemma {:induction false} TrimMeans(s: string) returns (from: nat, to: nat)
    ensures from <= to <= |s| && Trim(s) == s[from..to]
    ensures forall i :: 0 <= i < |s| && (i < from || to <= i) ==> s[i] in {' ', '\t', '\n', '\r', '\U{0B}', '\U{0C}'}
    ensures from < to ==> s[from] !in {' ', '\t', '\n', '\r', '\U{0B}', '\U{0C}'}
    ensures from < to ==> s[to - 1] !in {' ', '\t', '\n', '\r', '\U{0B}', '\U{0C}'}
  {
    from := LeftEnd(s);
    var kept := RightEnd(s[from..]);
    to := from + kept;
    assert s[from..][..to - from] == s[from..to];
    assert forall i :: to <= i < |s| ==> s[i] == s[from..][i - from];
  }

  lemma {:induction false} LeftEnd(s: string) returns (from: nat)
    ensures from <= |s| && TrimLeft(s) == s[from..] && forall i :: 0 <= i < from ==> Space(s[i])
  {
    from := 0;
    if s != "" && Space(s[0]) {
      from := LeftEnd(s[1..]);
      assert s[1..][from..] == s[from + 1..];
      assert forall i :: 1 <= i < from + 1 ==> s[i] == s[1..][i - 1];
      from := from + 1;
    }
  }

  lemma {:induction false} RightEnd(s: string) returns (to: nat)
    ensures to <= |s| && TrimRight(s) == s[..to] && forall i :: to <= i < |s| ==> Space(s[i])
  {
    to := |s|;
    if s != "" && Space(s[|s| - 1]) {
      to := RightEnd(s[..|s| - 1]);
    }
  }

  function UpperChar(c: char): char {
    if 'a' <= c <= 'z' then (c as int - 32) as char else c
  }

  function Upper(s: string): (r: string)
    ensures |r| == |s|
    ensures forall i :: 0 <= i < |s| ==> r[i] == UpperChar(s[i])
    ensures forall i :: 0 <= i < |s| ==> r[i] == if 'a' <= s[i] <= 'z' then (s[i] as int - 32) as char else s[i]
  {
    seq(|s|, i requires 0 <= i < |s| => UpperChar(s[i]))
  }

  /** strings.EqualFold. */
  predicate EqualFold(a: string, b: string) {
    Upper(a) == Upper(b)
  }

  /** Equal but for the case of letters. */
  lemma EqualFoldMeans(a: string, b: string)
    ensures EqualFold(a, b) <==>
              && |a| == |b|
              && forall i :: 0 <= i < |a| ==>
                   || a[i] == b[i]
                   || ('a' <= a[i] <= 'z' && a[i] as int == b[i] as int + 32)
                   || ('a' <= b[i] <= 'z' && b[i] as int == a[i] as int + 32)
  {
    if EqualFold(a, b) {
      forall i | 0 <= i < |a| ensures UpperChar(a[i]) == UpperChar(b[i]) {
        assert Upper(a)[i] == Upper(b)[i];
      }
    }
  }

  lemma TrimIdempotent(s: string)
    ensures Trim(Trim(s)) == Trim(s)
  {
    var t := Trim(s);
    if t != "" {
      assert t[0] == TrimLeft(s)[0];
    }
  }

  lemma UpperIdempotent(s: string)
    ensures Upper(Upper(s)) == Upper(s)
  {
  }

  /** Upper-casing turns no other character into a space, and no space into another character. */
  lemma {:induction false} TrimUpper(s: string)
    ensures Trim(Upper(s)) == Upper(Trim(s))
  {
    TrimLeftUpper(s);
    TrimRightUpper(TrimLeft(s));
  }

  lemma {:induction false} TrimLeftUpper(s: string)
    ensures TrimLeft(Upper(s)) == Upper(TrimLeft(s))
  {
    if s != "" && Space(s[0]) {
      assert Upper(s)[1..] == Upper(s[1..]);
      TrimLeftUpper(s[1..]);
    }
  }

  lemma {:induction false} TrimRightUpper(s: string)
    ensures TrimRight(Upper(s)) == Upper(TrimRight(s))
  {
    if s != "" && Space(s[|s| - 1]) {
      assert Upper(s)[..|s| - 1] == Upper(s[..|s| - 1]);
      TrimRightUpper(s[..|s| - 1]);
    }
  }

  /** Trimming and upper-casing a field twice is doing it once. */
  lemma CleanIdempotent(s: string)
    ensures Upper(Trim(Upper(Trim(s)))) == Upper(Trim(s))
  {
    TrimUpper(Trim(s));
    TrimIdempotent(s);
    UpperIdempotent(Trim(s));
  }

  /** Text without spaces at its ends is left alone. */
  lemma TrimKeeps(s: string)
    requires s == "" || (!Space(s[0]) && !Space(s[|s| - 1]))
    ensures Trim(s) == s
  {
  }
}
