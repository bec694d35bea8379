/** Trimming, as `String.prototype.trim` does it. */
module Text {
  import opened Domain

  predicate Blank(s: string) {
    forall i :: 0 <= i < |s| ==> IsSpace(s[i])
  }

  function TrimStart(s: string): string {
    if s != "" && IsSpace(s[0]) then TrimStart(s[1..]) else s
  }

  function TrimEnd(s: string): string {
    if s != "" && IsSpace(s[|s| - 1]) then TrimEnd(s[..|s| - 1]) else s
  }

  function Trim(s: string): string {
    TrimEnd(TrimStart(s))
  }

  lemma {:induction false} TrimStartWithin(s: string) returns (i: nat)
    ensures i <= |s| && TrimStart(s) == s[i..] && Blank(s[..i])
    ensures i == |s| || !IsSpace(s[i])
  {
    i := 0;
    if s != "" && IsSpace(s[0]) {
      i := TrimStartWithin(s[1..]);
      assert s[1..][i..] == s[i + 1..];
      assert s[..i + 1] == [s[0]] + s[1..][..i];
      i := i + 1;
    }
  }

  lemma {:induction false} TrimEndWithin(s: string) returns (j: nat)
    ensures j <= |s| && TrimEnd(s) == s[..j] && Blank(s[j..])
    ensures j == 0 || !IsSpace(s[j - 1])
  {
    j := |s|;
    if s != "" && IsSpace(s[|s| - 1]) {
      j := TrimEndWithin(s[..|s| - 1]);
      assert s[..|s| - 1][..j] == s[..j];
      assert s[j..] == s[..|s| - 1][j..] + [s[|s| - 1]];
    }
  }

  /** Trimming cuts a window out of the text: only blanks are outside, no blank is at its ends. */
  lemma TrimWithin(s: string) returns (i: nat, j: nat)
    ensures i <= j <= |s| && Trim(s) == s[i..j] && Blank(s[..i]) && Blank(s[j..])
    ensures i < j ==> !IsSpace(s[i]) && !IsSpace(s[j - 1])
  {
    i := TrimStartWithin(s);
    j := TrimEndWithin(s[i..]);
    assert s[i..][..j] == s[i..i + j] && s[i..][j..] == s[i + j..];
    j := i + j;
  }

  lemma TrimEmpty(s: string)
    ensures Trim(s) == "" <==> Blank(s)
  {
    var i, j := TrimWithin(s);
    if i < j {
      assert s[i..j][0] == s[i];
    } else {
      assert s == s[..i] + s[j..];
    }
  }

  /** Text without a blank at either end is its own trimming. */
  lemma TrimSame(s: string)
    requires s == "" || (!IsSpace(s[0]) && !IsSpace(s[|s| - 1]))
    ensures Trim(s) == s
  {}

  lemma ConcatAssoc<T>(a: seq<T>, b: seq<T>, c: seq<T>)
    ensures (a + b) + c == a + (b + c)
  {}

  /** The characters that are not blank, in order. */
  function Ink(s: string): string {
    if s == "" then "" else (if IsSpace(s[0]) then "" else [s[0]]) + Ink(s[1..])
  }

  lemma {:induction false} InkAppend(a: string, b: string)
    ensures Ink(a + b) == Ink(a) + Ink(b)
  {
    if a == "" {
      assert a + b == b;
    } else {
      assert (a + b)[1..] == a[1..] + b;
      InkAppend(a[1..], b);
    }
  }

  lemma {:induction false} InkBlank(s: string)
    requires Blank(s)
    ensures Ink(s) == ""
  {
    if s != "" { InkBlank(s[1..]); }
  }

  lemma InkTrim(s: string)
    ensures Ink(Trim(s)) == Ink(s)
  {
    var i, j := TrimWithin(s);
    assert s == s[..i] + s[i..j] + s[j..];
    InkAppend(s[..i] + s[i..j], s[j..]);
    InkAppend(s[..i], s[i..j]);
    InkBlank(s[..i]);
    InkBlank(s[j..]);
  }

  lemma {:induction false} InkNothing(s: string)
    ensures Ink(s) == "" <==> Blank(s)
  {
    if s != "" { InkNothing(s[1..]); }
  }

  lemma TrimTwice(s: string)
    ensures Trim(Trim(s)) == Trim(s)
  {
    var i, j := TrimWithin(s);
    TrimSame(Trim(s));
  }

  lemma {:induction false} TrimEndMore(a: string, b: string)
    requires Blank(b)
    ensures TrimEnd(a + b) == TrimEnd(a)
    decreases |b|
  {
    if b == "" {
      assert a + b == a;
    } else {
      assert (a + b)[..|a + b| - 1] == a + b[..|b| - 1];
      TrimEndMore(a, b[..|b| - 1]);
    }
  }

  lemma {:induction false} TrimStartMore(a: string, b: string)
    requires !Blank(a)
    ensures TrimStart(a + b) == TrimStart(a) + b
    decreases |a|
  {
    if IsSpace(a[0]) {
      assert (a + b)[1..] == a[1..] + b;
      TrimStartMore(a[1..], b);
    }
  }

  /** Blanks behind a text do not show in its trimming. */
  lemma TrimMore(a: string, b: string)
    requires !Blank(a) && Blank(b)
    ensures Trim(a + b) == Trim(a)
  {
    TrimStartMore(a, b);
    TrimEndMore(TrimStart(a), b);
  }
}
