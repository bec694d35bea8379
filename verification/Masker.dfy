/** The masker and its token map, in place. */
module Masker {
  import opened Domain
  import opened Pii
  import opened PiiTheorems
  import opened PiiPasses

  /** A JavaScript Map, walked in insertion order. */
  class TokenMap {
    var entries: seq<Entry>

    constructor ()
      ensures entries == []
    {
      entries := [];
    }

    /** `set`: overwrites in place or appends. */
    method Set(token: Key, original: string)
      modifies this
      ensures !HasKey(old(entries), token) ==> entries == old(entries) + [Entry(token, original)]
      ensures HasKey(old(entries), token) ==>
                && |entries| == |old(entries)|
                && exists i :: 0 <= i < |entries| && old(entries)[i].token == token
                               && entries == old(entries)[i := Entry(token, original)]
    {
      for i := 0 to |entries|
        invariant entries == old(entries)
        invariant forall j :: 0 <= j < i ==> entries[j].token != token
      {
        if entries[i].token == token {
          entries := entries[i := Entry(token, original)];
          return;
        }
      }
      entries := entries + [Entry(token, original)];
    }
  }

  method CountKeys(mappings: TokenMap, p: Pattern) returns (n: nat)
    ensures n == CountTokens(mappings.entries, p)
  {
    n := 0;
    var es := mappings.entries;
    for i := 0 to |es|
      invariant n == CountTokens(es[..i], p)
    {
      if Prefix(p) <= es[i].token { n := n + 1; }
      assert es[..i + 1][..i] == es[..i];
    }
    assert es[..|es|] == es;
  }

  method FindKey(mappings: TokenMap, original: string) returns (r: Option<Key>)
    ensures r == FindToken(mappings.entries, original)
  {
    var es := mappings.entries;
    for i := 0 to |es|
      invariant FindToken(es, original) == FindToken(es[i..], original)
    {
      if es[i].original == original { return Some(es[i].token); }
      assert es[i..][1..] == es[i + 1..];
    }
    r := None;
  }

  class RegexPiiMasker {
    const find: Finder

    constructor (find: Finder)
      ensures this.find == find
    {
      this.find := find;
    }

    method Mask(text: string, mappings: TokenMap) returns (out: string)
      requires GoodFinder(find) && WellFormed(mappings.entries)
      modifies mappings
      ensures (out, mappings.entries) == Masked(find, text, old(mappings.entries))
      ensures WellFormed(mappings.entries)
      ensures FourPasses(find, text, old(mappings.entries), out, mappings.entries)
    {
      MaskedPasses(find, text, mappings.entries);
      out := text;
      for i := 0 to |PATTERNS|
        invariant MaskFrom(find, PATTERNS[i..], out, mappings.entries) == Masked(find, text, old(mappings.entries))
        invariant WellFormed(mappings.entries)
      {
        assert GoodSpans(out, find(PATTERNS[i], out));
        RewriteKeepsMap(out, find(PATTERNS[i], out), 0, PATTERNS[i], mappings.entries);
        out := Replace(out, find(PATTERNS[i], out), PATTERNS[i], mappings);
        assert PATTERNS[i..][1..] == PATTERNS[i + 1..];
      }
    }

    /** The callback that `replace` runs on each match. */
    method Tokenize(original: string, p: Pattern, n: nat, mappings: TokenMap) returns (token: Key, n': nat)
      requires WellFormed(mappings.entries) && n == CountTokens(mappings.entries, p) && BracketFree(original)
      modifies mappings
      ensures Lookup(token, n', mappings.entries) == TokenFor(old(mappings.entries), p, n, original)
      ensures WellFormed(mappings.entries) && n' == CountTokens(mappings.entries, p)
    {
      TokenForFacts(mappings.entries, p, original);
      var existing := FindKey(mappings, original);
      if existing.Some? { return existing.value, n; }
      n' := n + 1;
      token := Token(p, n');
      KeysNumbered(mappings.entries, p, n');
      mappings.Set(token, original);
    }

    /** One `out.replace(p.re, …)`. */
    method Replace(text: string, spans: seq<Span>, p: Pattern, mappings: TokenMap) returns (out: string)
      requires GoodTail(text, spans, 0) && WellFormed(mappings.entries)
      modifies mappings
      ensures (out, mappings.entries) ==
              Rewrite(text, spans, 0, p, CountTokens(old(mappings.entries), p), old(mappings.entries))
    {
      var n := CountKeys(mappings, p);
      var from: nat := 0;
      out := "";
      ghost var whole := Rewrite(text, spans, 0, p, n, mappings.entries);
      for i := 0 to |spans|
        invariant GoodTail(text, spans[i..], from)
        invariant WellFormed(mappings.entries) && n == CountTokens(mappings.entries, p)
        invariant whole.0 == out + Rewrite(text, spans[i..], from, p, n, mappings.entries).0
        invariant whole.1 == Rewrite(text, spans[i..], from, p, n, mappings.entries).1
      {
        ghost var tail := spans[i..];
        var sp := spans[i];
        assert tail[0] == sp && tail[1..] == spans[i + 1..] && sp in tail;
        GoodTailStep(text, tail, from);
        var token: Key;
        token, n := Tokenize(text[sp.lo..sp.hi], p, n, mappings);
        ghost var rest := Rewrite(text, spans[i + 1..], sp.hi, p, n, mappings.entries).0;
        Regroup(out, text[from..sp.lo], token, rest);
        Regroup(out, text[from..sp.lo], token, "");
        out := out + text[from..sp.lo] + token;
        from := sp.hi;
      }
      assert spans[|spans|..] == [];
      out := out + text[from..];
    }

    method Unmask(text: string, mappings: TokenMap) returns (out: string)
      ensures out == Unmasked(text, mappings.entries)
    {
      var es := mappings.entries;
      out := text;
      for i := 0 to |es|
        invariant Unmasked(out, es[i..]) == Unmasked(text, es)
      {
        SplitJoin(out, es[i].token, es[i].original);
        out := Join(Split(out, es[i].token), es[i].original);
        assert es[i..][1..] == es[i + 1..];
      }
    }
  }
}
