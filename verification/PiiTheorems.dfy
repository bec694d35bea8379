/** Unmasking undoes masking, and masking again changes nothing. */
module PiiTheorems {
  import opened Domain
  import opened Pii

  // ----- A masked text as a list of characters and placeholders -----

  datatype Items = End | Ch(c: char, rest: Items) | Tok(token: Key, original: string, rest: Items)

  /** The masked text. */
  function Render(xs: Items): string {
    match xs
    case End => ""
    case Ch(c, rest) => [c] + Render(rest)
    case Tok(token, _, rest) => token + Render(rest)
  }

  /** The text it stands for. */
  function Restore(xs: Items): string {
    match xs
    case End => ""
    case Ch(c, rest) => [c] + Restore(rest)
    case Tok(_, original, rest) => original + Restore(rest)
  }

  /** Every placeholder is an entry of the map. */
  predicate Backed(xs: Items, es: seq<Entry>) {
    match xs
    case End => true
    case Ch(_, rest) => Backed(rest, es)
    case Tok(token, original, rest) => Entry(token, original) in es && Backed(rest, es)
  }

  function Chars(s: string): (r: Items)
    ensures Render(r) == s == Restore(r)
  {
    if s == "" then End else Ch(s[0], Chars(s[1..]))
  }

  lemma {:induction false} CharsBacked(s: string, es: seq<Entry>)
    ensures Backed(Chars(s), es)
  {
    if s != "" { CharsBacked(s[1..], es); }
  }

  lemma {:induction false} BackedMore(xs: Items, es: seq<Entry>, es': seq<Entry>)
    requires Backed(xs, es) && es <= es'
    ensures Backed(xs, es')
  {
    match xs
    case End =>
    case Ch(_, rest) => BackedMore(rest, es, es');
    case Tok(token, original, rest) =>
      assert es' == es + es'[|es|..];
      BackedMore(rest, es, es');
  }

  /** The items of `l` followed by those of `r`. */
  function Append(l: Items, r: Items): Items {
    match l
    case End => r
    case Ch(c, rest) => Ch(c, Append(rest, r))
    case Tok(token, original, rest) => Tok(token, original, Append(rest, r))
  }

  lemma {:induction false} AppendFacts(l: Items, r: Items, es: seq<Entry>)
    requires Backed(l, es) && Backed(r, es)
    ensures Backed(Append(l, r), es)
    ensures Render(Append(l, r)) == Render(l) + Render(r)
    ensures Restore(Append(l, r)) == Restore(l) + Restore(r)
  {
    match l
    case End =>
    case Ch(c, rest) =>
      AppendFacts(rest, r, es);
      Regroup([c], Render(rest), Render(r), "");
      Regroup([c], Restore(rest), Restore(r), "");
    case Tok(token, original, rest) =>
      AppendFacts(rest, r, es);
      Regroup(token, Render(rest), Render(r), "");
      Regroup(original, Restore(rest), Restore(r), "");
  }

  // ----- Facts about the map -----

  lemma {:induction false} CountAppend(es: seq<Entry>, e: Entry, p: Pattern)
    ensures CountTokens(es + [e], p) == CountTokens(es, p) + if Prefix(p) <= e.token then 1 else 0
  {
    assert (es + [e])[..|es|] == es;
  }

  /** Adding the next token of a pattern for a new bracket-free value. */
  lemma WellFormedAppend(es: seq<Entry>, p: Pattern, token: string, original: string)
    requires WellFormed(es) && FindToken(es, original).None? && BracketFree(original)
    requires IsNext(es, token, p)
    ensures WellFormed(es + [Entry(token, original)])
  {
    var es' := es + [Entry(token, original)];
    forall i | 0 <= i < |es'|
      ensures Numbered(es', i)
    {
      assert es'[..i] == es[..i];
      if i < |es| {
        assert es'[i] == es[i] && Numbered(es, i);
        var q :| IsNext(es[..i], es[i].token, q);
        assert IsNext(es'[..i], es'[i].token, q);
      } else {
        assert es'[..i] == es;
        assert IsNext(es'[..i], es'[i].token, p);
      }
    }
  }

  lemma WellFormedPrefix(es: seq<Entry>, i: nat)
    requires WellFormed(es) && i <= |es|
    ensures WellFormed(es[..i])
  {
    forall j | 0 <= j < i
      ensures Numbered(es[..i], j)
    {
      assert es[..i][..j] == es[..j];
      assert Numbered(es, j);
    }
  }

  lemma {:induction false} CountMonotone(es: seq<Entry>, i: nat, j: nat, p: Pattern)
    requires i <= j <= |es|
    ensures CountTokens(es[..i], p) <= CountTokens(es[..j], p)
    decreases j
  {
    if i < j {
      assert es[..j][..j - 1] == es[..j - 1];
      CountMonotone(es, i, j - 1, p);
    }
  }

  lemma NumbersDiffer(es: seq<Entry>, i: nat, j: nat, p: Pattern, q: Pattern)
    requires i < j < |es| && IsNext(es[..i], es[i].token, p) && IsNext(es[..j], es[j].token, q)
    ensures es[i].token != es[j].token
  {
    var m, n := CountTokens(es[..i], p) + 1, CountTokens(es[..j], q) + 1;
    TokenInjective(p, m, q, n);
    TokenInjective(p, m, p, 0);
    assert es[..i + 1] == es[..i] + [es[i]];
    CountAppend(es[..i], es[i], p);
    CountMonotone(es, i + 1, j, p);
  }

  /** The map is one-to-one: no key and no value occurs twice. */
  lemma MapOneToOne(es: seq<Entry>, i: nat, j: nat)
    requires WellFormed(es) && i < j < |es|
    ensures es[i].token != es[j].token && es[i].original != es[j].original
  {
    assert Numbered(es, i) && Numbered(es, j);
    var p :| IsNext(es[..i], es[i].token, p);
    var q :| IsNext(es[..j], es[j].token, q);
    NumbersDiffer(es, i, j, p, q);
  }

  predicate HasKey(es: seq<Entry>, k: string) {
    exists e :: e in es && e.token == k
  }

  lemma HasKeyAppend(es: seq<Entry>, e: Entry, k: string)
    ensures HasKey(es + [e], k) <==> HasKey(es, k) || e.token == k
  {
    assert e in es + [e];
    assert forall x :: x in es ==> x in es + [e];
  }

  /** The keys of a pattern are exactly its numbers 1..k, where k is how many there are. */
  lemma {:induction false} KeysNumbered(es: seq<Entry>, p: Pattern, n: nat)
    requires WellFormed(es)
    ensures HasKey(es, Token(p, n)) <==> 1 <= n <= CountTokens(es, p)
  {
    if es != [] {
      var init, last := es[..|es| - 1], es[|es| - 1];
      WellFormedPrefix(es, |es| - 1);
      KeysNumbered(init, p, n);
      assert Numbered(es, |es| - 1);
      var q :| IsNext(init, last.token, q);
      LastKey(init, last, q, p, n);
      assert es == init + [last];
    }
  }

  lemma LastKey(init: seq<Entry>, last: Entry, q: Pattern, p: Pattern, n: nat)
    requires IsNext(init, last.token, q)
    requires HasKey(init, Token(p, n)) <==> 1 <= n <= CountTokens(init, p)
    ensures HasKey(init + [last], Token(p, n)) <==> 1 <= n <= CountTokens(init + [last], p)
  {
    HasKeyAppend(init, last, Token(p, n));
    CountAppend(init, last, p);
    TokenInjective(q, CountTokens(init, q) + 1, p, n);
  }

  ghost predicate IsToken(t: string) {
    exists p: Pattern, n: nat :: t == Token(p, n)
  }

  lemma IsTokenShaped(t: string)
    requires IsToken(t)
    ensures Shaped(t)
  {
    var p: Pattern, n: nat :| t == Token(p, n);
    TokenShaped(p, n);
  }

  lemma EntryIsToken(es: seq<Entry>, e: Entry)
    requires WellFormed(es) && e in es
    ensures IsToken(e.token) && BracketFree(e.original)
  {
    var i :| 0 <= i < |es| && es[i] == e;
    assert Numbered(es, i);
    var p :| IsNext(es[..i], es[i].token, p);
  }

  /** A token of a map with fewer than `MANY` entries. */
  ghost predicate IsSmallToken(t: string) {
    exists p: Pattern, n: nat :: n < MANY && t == Token(p, n)
  }

  lemma SmallIsToken(t: string)
    requires IsSmallToken(t)
    ensures IsToken(t) && Shaped(t)
  {
    var p: Pattern, n: nat :| n < MANY && t == Token(p, n);
    TokenShaped(p, n);
  }

  lemma {:induction false} CountBound(es: seq<Entry>, p: Pattern)
    ensures CountTokens(es, p) <= |es|
  {
    if es != [] { CountBound(es[..|es| - 1], p); }
  }

  lemma EntryIsSmall(es: seq<Entry>, e: Entry)
    requires WellFormed(es) && e in es && |es| < MANY
    ensures IsSmallToken(e.token)
  {
    var i :| 0 <= i < |es| && es[i] == e;
    assert Numbered(es, i);
    var p :| IsNext(es[..i], es[i].token, p);
    CountBound(es[..i], p);
  }

  // ----- What one rewrite does -----

  /** A beginning of a rendered text without opening brackets is made of characters. */
  lemma {:induction false} CharPrefix(xs: Items, es: seq<Entry>, v: string) returns (r: Items)
    requires WellFormed(es) && Backed(xs, es) && v <= Render(xs) && OpenFree(v)
    ensures Render(xs) == v + Render(r) && Restore(xs) == v + Restore(r) && Backed(r, es)
    decreases |v|
  {
    if v == "" {
      r := xs;
    } else {
      assert v[0] == Render(xs)[0] != '[';
      if xs.Tok? {
        EntryIsToken(es, Entry(xs.token, xs.original));
        IsTokenShaped(xs.token);
      }
      assert v[1..] <= Render(xs.rest);
      r := CharPrefix(xs.rest, es, v[1..]);
      assert v == [xs.c] + v[1..];
    }
  }

  lemma Regroup(a: string, b: string, c: string, d: string)
    ensures a + (b + c + d) == (a + b) + c + d
    ensures a + (b + c) == a + b + c
  {
  }

  lemma Cancel(a: string, b: string, c: string, d: string)
    requires a + b == c + d && |a| == |c|
    ensures a == c && b == d
  {
    assert a == (a + b)[..|a|] && c == (c + d)[..|c|];
    assert b == (a + b)[|a|..] && d == (c + d)[|c|..];
  }

  /** What follows a token's opening bracket is inside the token, or takes its closing bracket. */
  lemma Occurring(pre: string, token: string, rest: string)
    ensures OccursAt(pre + token + rest, token, |pre|)
    ensures forall i :: |pre| <= i < |pre| + |token| ==> (pre + token + rest)[i] == token[i - |pre|]
  {
    assert (pre + token + rest)[|pre|..] == token + rest;
  }

  lemma StartsInsideToken(pre: string, token: string, rest: string, before: string, v: string, after: string)
    requires IsSmallToken(token) && pre + token + rest == before + v + after && v != ""
    requires |pre| < |before| < |pre| + |token|
    ensures InsideToken(before + v + after, Span(|before|, |before| + |v|)) || !BracketFree(v)
  {
    var t := before + v + after;
    SmallIsToken(token);
    var p: Pattern, n: nat :| n < MANY && token == Token(p, n);
    assert token[|token| - 1] == ']';
    hide Token, IsSmallToken, OccursAt;
    Occurring(pre, token, rest);
    if |pre| + |token| <= |before| + |v| {
      var i := |pre| + |token| - 1;
      assert v[i - |before|] == t[i] == ']';
    }
  }

  /** A good match in a rendered text covers characters only. */
  lemma {:induction false} SplitItems(pre: string, xs: Items, es: seq<Entry>, before: string, v: string, after: string)
      returns (l: Items, r: Items)
    requires WellFormed(es) && |es| < MANY && Backed(xs, es) && pre + Render(xs) == before + v + after
    requires v != "" && BracketFree(v) && !InsideToken(before + v + after, Span(|before|, |before| + |v|))
    requires |pre| <= |before|
    ensures pre + Render(l) == before && Render(r) == after
    ensures Restore(xs) == Restore(l) + v + Restore(r)
    ensures Backed(l, es) && Backed(r, es)
    decreases xs
  {
    if |pre| == |before| {
      l := End;
      Regroup(before, v, after, "");
      Cancel(pre, Render(xs), before, v + after);
      r := CharPrefix(xs, es, v);
      Cancel(v, Render(r), v, after);
    } else {
      match xs
      case Ch(c, rest) =>
        Regroup(pre, [c], Render(rest), "");
        var l';
        l', r := SplitItems(pre + [c], rest, es, before, v, after);
        l := Ch(c, l');
        Regroup(pre, [c], Render(l'), "");
        Regroup([c], Restore(l'), v, Restore(r));
      case Tok(token, original, rest) =>
        EntryIsSmall(es, Entry(token, original));
        Regroup(pre, token, Render(rest), "");
        if |before| < |pre| + |token| { StartsInsideToken(pre, token, Render(rest), before, v, after); }
        var l';
        l', r := SplitItems(pre + token, rest, es, before, v, after);
        l := Tok(token, original, l');
        Regroup(pre, token, Render(l'), "");
        Regroup(original, Restore(l'), v, Restore(r));
    }
  }

  lemma TokenForFacts(es: seq<Entry>, p: Pattern, original: string)
    requires WellFormed(es) && BracketFree(original)
    ensures var look := TokenFor(es, p, CountTokens(es, p), original);
            && WellFormed(look.es) && es <= look.es && look.n == CountTokens(look.es, p)
            && Entry(look.token, original) in look.es
  {
    var n := CountTokens(es, p);
    if FindToken(es, original).None? {
      var token := Token(p, n + 1);
      assert IsNext(es, token, p);
      WellFormedAppend(es, p, token, original);
      CountAppend(es, Entry(token, original), p);
      TokenInjective(p, n + 1, p, 0);
    }
  }

  ghost predicate GoodTail(text: string, spans: seq<Span>, from: nat) {
    && SpansFit(text, spans, from)
    && forall sp :: sp in spans ==> BracketFree(text[sp.lo..sp.hi]) && !InsideToken(text, sp)
  }

  lemma GoodTailStep(text: string, spans: seq<Span>, from: nat)
    requires GoodTail(text, spans, from) && spans != []
    ensures GoodTail(text, spans[1..], spans[0].hi)
  {
    assert forall sp :: sp in spans[1..] ==> sp in spans;
  }

  /** One match replaced: the text changes, what it stands for does not. */
  lemma ReplaceOne(text: string, from: nat, sp: Span, token: Key, xs: Items, es: seq<Entry>, es': seq<Entry>)
      returns (l: Items, r: Items)
    requires from <= sp.lo < sp.hi <= |text| && Render(xs) == text[from..]
    requires WellFormed(es) && |es| < MANY && Backed(xs, es) && es <= es'
    requires BracketFree(text[sp.lo..sp.hi]) && !InsideToken(text, sp)
    requires Entry(token, text[sp.lo..sp.hi]) in es'
    ensures Backed(l, es') && Backed(r, es')
    ensures Render(l) == text[from..sp.lo] && Render(r) == text[sp.hi..]
    ensures Restore(xs) == Restore(l) + text[sp.lo..sp.hi] + Restore(r)
  {
    var pre, before, v, after := text[..from], text[..sp.lo], text[sp.lo..sp.hi], text[sp.hi..];
    assert pre + Render(xs) == text == before + v + after;
    l, r := SplitItems(pre, xs, es, before, v, after);
    assert before == pre + text[from..sp.lo];
    Cancel(pre, Render(l), pre, text[from..sp.lo]);
    BackedMore(l, es, es');
    BackedMore(r, es, es');
  }

  lemma StillIn(es: seq<Entry>, es': seq<Entry>, e: Entry)
    requires es <= es' && e in es
    ensures e in es'
  {
    assert es' == es + es'[|es|..];
  }

  lemma {:induction false} RewriteItems(text: string, spans: seq<Span>, from: nat, p: Pattern, es: seq<Entry>,
                                        xs: Items)
      returns (ys: Items)
    requires GoodTail(text, spans, from) && WellFormed(es) && Backed(xs, es) && Render(xs) == text[from..]
    requires |Rewrite(text, spans, from, p, CountTokens(es, p), es).1| < MANY
    ensures var (out, es') := Rewrite(text, spans, from, p, CountTokens(es, p), es);
            && WellFormed(es') && es <= es'
            && Backed(ys, es') && Render(ys) == out && Restore(ys) == Restore(xs)
    decreases |spans|
  {
    if spans == [] {
      ys := xs;
    } else {
      var sp := spans[0];
      var v := text[sp.lo..sp.hi];
      var look := TokenFor(es, p, CountTokens(es, p), v);
      assert sp in spans;
      TokenForFacts(es, p, v);
      GoodTailStep(text, spans, from);
      RewriteGrows(text, spans, from, p, CountTokens(es, p), es);
      var l, r := ReplaceOne(text, from, sp, look.token, xs, es, look.es);
      var zs := RewriteItems(text, spans[1..], sp.hi, p, look.es, r);
      var es' := Rewrite(text, spans[1..], sp.hi, p, look.n, look.es).1;
      BackedMore(l, look.es, es');
      ys := Append(l, Tok(look.token, v, zs));
      StillIn(look.es, es', Entry(look.token, v));
      AppendFacts(l, Tok(look.token, v, zs), es');
      Regroup(Restore(l), v, Restore(zs), "");
      Regroup(Render(l), look.token, Render(zs), "");
    }
  }

  lemma {:induction false} MaskItems(find: Finder, ps: seq<Pattern>, text: string, es: seq<Entry>, xs: Items)
      returns (ys: Items)
    requires GoodFinder(find) && WellFormed(es) && Backed(xs, es) && Render(xs) == text
    requires |MaskFrom(find, ps, text, es).1| < MANY
    ensures var (out, es') := MaskFrom(find, ps, text, es);
            && WellFormed(es') && es <= es'
            && Backed(ys, es') && Render(ys) == out && Restore(ys) == Restore(xs)
    decreases |ps|
  {
    if ps == [] {
      ys := xs;
    } else {
      var spans := find(ps[0], text);
      assert GoodSpans(text, spans);
      assert text[0..] == text;
      RewriteKeepsMap(text, spans, 0, ps[0], es);
      MaskKeepsMap(find, ps[1..], Rewrite(text, spans, 0, ps[0], CountTokens(es, ps[0]), es).0,
                   Rewrite(text, spans, 0, ps[0], CountTokens(es, ps[0]), es).1);
      var zs := RewriteItems(text, spans, 0, ps[0], es, xs);
      var (out, es') := Rewrite(text, spans, 0, ps[0], CountTokens(es, ps[0]), es);
      ys := MaskItems(find, ps[1..], out, es', zs);
    }
  }

  // ----- What one unmasking step does -----

  lemma {:induction false} HasLater(a: string, t: string, k: string)
    requires Has(t, k)
    ensures Has(a + t, k)
  {
    if a == "" {
      assert a + t == t;
    } else {
      HasLater(a[1..], t, k);
      assert (a + t)[1..] == a[1..] + t;
    }
  }

  lemma ShapedTail(k: string)
    requires Shaped(k)
    ensures k == [k[0]] + k[1..] && OpenFree(k[1..])
  {
    forall i | 0 <= i < |k| - 1
      ensures k[1..][i] != '['
    {
      if i < |k| - 2 { assert k[1..|k| - 1][i] == k[i + 1]; }
    }
  }

  /** Neither of two different tokens begins the other. */
  lemma TokensApart(j: string, rest: string, k: string)
    requires Shaped(j) && Shaped(k) && k <= j + rest
    ensures j == k
  {
    assert forall i :: 0 <= i < |k| && i < |j| ==> k[i] == j[i];
    ClosesLast(j);
    ClosesLast(k);
  }

  lemma ClosesLast(k: string)
    requires Shaped(k)
    ensures forall i :: 0 < i < |k| - 1 ==> k[i] != ']'
  {
    assert forall i :: 0 < i < |k| - 1 ==> k[1..|k| - 1][i - 1] == k[i];
  }

  lemma {:induction false} ReplaceSkips(a: string, rest: string, k: string, v: string)
    requires Shaped(k) && OpenFree(a)
    ensures ReplaceAll(a + rest, k, v) == a + ReplaceAll(rest, k, v)
  {
    if a == "" {
      assert a + rest == rest;
    } else {
      assert (a + rest)[0] == a[0] != '[';
      assert (a + rest)[1..] == a[1..] + rest;
      ReplaceSkips(a[1..], rest, k, v);
    }
  }

  lemma ReplaceOther(j: string, rest: string, k: string, v: string)
    requires Shaped(j) && Shaped(k) && j != k
    ensures ReplaceAll(j + rest, k, v) == j + ReplaceAll(rest, k, v)
  {
    if k <= j + rest {
      TokensApart(j, rest, k);
    }
    ShapedTail(j);
    assert (j + rest)[1..] == j[1..] + rest;
    ReplaceSkips(j[1..], rest, k, v);
  }

  /** The items with one placeholder spelled out. */
  function Clear(xs: Items, k: string): Items {
    match xs
    case End => End
    case Ch(c, rest) => Ch(c, Clear(rest, k))
    case Tok(token, original, rest) =>
      if token == k then Append(Chars(original), Clear(rest, k)) else Tok(token, original, Clear(rest, k))
  }

  predicate KeysUnique(es: seq<Entry>) {
    forall d, e :: d in es && e in es && d.token == e.token ==> d == e
  }

  lemma {:induction false} ClearFacts(xs: Items, es: seq<Entry>, k: string, left: seq<Entry>)
    requires Backed(xs, es) && (forall e :: e in es && e.token != k ==> e in left)
    ensures Backed(Clear(xs, k), left) && Restore(Clear(xs, k)) == Restore(xs)
  {
    match xs
    case End =>
    case Ch(_, rest) => ClearFacts(rest, es, k, left);
    case Tok(token, original, rest) =>
      ClearFacts(rest, es, k, left);
      CharsBacked(original, left);
      AppendFacts(Chars(original), Clear(rest, k), left);
  }

  /** Where a text stands for one without the key, every occurrence of the key is a placeholder. */
  lemma {:induction false} ReplaceClears(xs: Items, es: seq<Entry>, e: Entry)
    requires WellFormed(es) && KeysUnique(es) && e in es && Backed(xs, es)
    requires !Has(Restore(xs), e.token)
    ensures Shaped(e.token) && ReplaceAll(Render(xs), e.token, e.original) == Render(Clear(xs, e.token))
  {
    var k, v := e.token, e.original;
    EntryIsToken(es, e);
    IsTokenShaped(k);
    match xs
    case End =>
    case Ch(c, rest) =>
      assert Restore(xs)[1..] == Restore(rest) && Render(xs)[1..] == Render(rest);
      NoAccident(xs, es, k);
      ReplaceClears(rest, es, e);
    case Tok(token, original, rest) =>
      if Has(Restore(rest), k) { HasLater(original, Restore(rest), k); }
      ReplaceClears(rest, es, e);
      if token == k {
        CharsBacked(original, es);
        ClearFacts(rest, es, k, es);
        AppendFacts(Chars(original), Clear(rest, k), es);
        assert Render(xs)[|k|..] == Render(rest);
      } else {
        EntryIsToken(es, Entry(token, original));
        IsTokenShaped(token);
        ReplaceOther(token, Render(rest), k, v);
      }
  }

  lemma NoAccident(xs: Items, es: seq<Entry>, k: string)
    requires WellFormed(es) && Backed(xs, es) && xs.Ch? && Shaped(k)
    ensures k <= Render(xs) ==> k <= Restore(xs)
  {
    if k <= Render(xs) {
      ShapedTail(k);
      assert k[1..] <= Render(xs)[1..] == Render(xs.rest);
      var r := CharPrefix(xs.rest, es, k[1..]);
      assert Restore(xs) == [xs.c] + (k[1..] + Restore(r)) == k + Restore(r);
    }
  }

  /** The walk undoes the placeholders, in whatever order it meets the entries. */
  lemma {:induction false} UnmaskRestores(xs: Items, es: seq<Entry>, order: seq<Entry>)
    requires WellFormed(es) && KeysUnique(es) && (forall e :: e in order ==> e in es)
    requires Backed(xs, order) && (forall e :: e in order ==> !Has(Restore(xs), e.token))
    ensures Unmasked(Render(xs), order) == Restore(xs)
    decreases |order|
  {
    if order == [] {
      NoPlaceholders(xs);
    } else {
      var e, left := order[0], order[1..];
      assert e in order && forall d :: d in left ==> d in order;
      BackedWider(xs, order, es);
      ReplaceClears(xs, es, e);
      assert forall d :: d in order && d.token != e.token ==> d in left;
      ClearFacts(xs, order, e.token, left);
      UnmaskRestores(Clear(xs, e.token), es, left);
    }
  }

  lemma {:induction false} NoPlaceholders(xs: Items)
    requires Backed(xs, [])
    ensures Render(xs) == Restore(xs)
  {
    match xs
    case End =>
    case Ch(_, rest) => NoPlaceholders(rest);
  }

  lemma {:induction false} BackedWider(xs: Items, es: seq<Entry>, es': seq<Entry>)
    requires Backed(xs, es) && forall e :: e in es ==> e in es'
    ensures Backed(xs, es')
  {
    match xs
    case End =>
    case Ch(_, rest) => BackedWider(rest, es, es');
    case Tok(_, _, rest) => BackedWider(rest, es, es');
  }

  // ----- When the text already holds a key -----

  /** The opening brackets of `s` that do not begin one of the keys. */
  ghost function Opens(s: string, keys: set<string>): nat {
    if s == "" then 0
    else (if s[0] == '[' && !StartsKey(s, keys) then 1 else 0) + Opens(s[1..], keys)
  }

  ghost predicate StartsKey(s: string, keys: set<string>) {
    exists k :: k in keys && k <= s
  }

  lemma {:induction false} OpensSkips(a: string, s: string, keys: set<string>)
    requires OpenFree(a)
    ensures Opens(a + s, keys) == Opens(s, keys)
  {
    if a == "" {
      assert a + s == s;
    } else {
      assert (a + s)[0] == a[0] != '[';
      assert (a + s)[1..] == a[1..] + s;
      OpensSkips(a[1..], s, keys);
    }
  }

  lemma OpensToken(k: string, s: string, keys: set<string>)
    requires Shaped(k)
    ensures Opens(s, keys) <= Opens(k + s, keys)
    ensures k in keys ==> Opens(k + s, keys) == Opens(s, keys)
  {
    ShapedTail(k);
    assert (k + s)[1..] == k[1..] + s;
    OpensSkips(k[1..], s, keys);
    assert k <= k + s;
  }

  lemma {:induction false} OpensAntitone(s: string, keys: set<string>, more: set<string>)
    requires keys <= more
    ensures Opens(s, more) <= Opens(s, keys)
  {
    if s != "" {
      OpensAntitone(s[1..], keys, more);
      if StartsKey(s, keys) {
        var k :| k in keys && k <= s;
        assert k in more;
      }
    }
  }

  lemma {:induction false} HeldKeyCounts(t: string, k: string, keys: set<string>)
    requires Has(t, k) && k in keys && Shaped(k)
    ensures Opens(t, keys) < Opens(t, {})
  {
    if k <= t {
      assert StartsKey(t, keys) && t[0] == '[';
      OpensAntitone(t[1..], {}, keys);
    } else {
      HeldKeyCounts(t[1..], k, keys);
      if StartsKey(t, {}) {}
    }
  }

  lemma {:induction false} ReplaceKeepsPlain(a: string, s: string, k: string, v: string)
    requires Shaped(k) && OpenFree(a) && a <= s
    ensures a <= ReplaceAll(s, k, v)
  {
    assert s == a + s[|a|..];
    ReplaceSkips(a, s[|a|..], k, v);
  }

  /** A replaced key takes its bracket away and no other key is lost. */
  lemma {:induction false} ReplaceOpens(s: string, k: string, v: string, keys: set<string>)
    requires Shaped(k) && OpenFree(v) && forall j :: j in keys ==> Shaped(j)
    ensures Opens(ReplaceAll(s, k, v), keys - {k}) <= Opens(s, keys)
    decreases |s|
  {
    if s == "" {
    } else if k <= s {
      var rest := s[|k|..];
      assert s == k + rest;
      ReplaceOpens(rest, k, v, keys);
      OpensSkips(v, ReplaceAll(rest, k, v), keys - {k});
      OpensToken(k, rest, keys);
    } else {
      ReplaceOpens(s[1..], k, v, keys);
      var s' := ReplaceAll(s, k, v);
      assert s'[1..] == ReplaceAll(s[1..], k, v);
      if s[0] == '[' && StartsKey(s, keys) {
        var j :| j in keys && j <= s;
        ShapedTail(j);
        assert j[1..] <= s[1..];
        ReplaceKeepsPlain(j[1..], s[1..], k, v);
        assert j <= s' && j in keys - {k};
      }
    }
  }

  function KeySet(es: seq<Entry>): set<string> {
    set e | e in es :: e.token
  }

  lemma {:induction false} UnmaskOpens(s: string, es: seq<Entry>, order: seq<Entry>)
    requires WellFormed(es) && (forall e :: e in order ==> e in es)
    ensures Opens(Unmasked(s, order), {}) <= Opens(s, KeySet(order))
    decreases |order|
  {
    if order == [] {
      assert KeySet(order) == {};
    } else {
      var e, left := order[0], order[1..];
      assert e in order && forall d :: d in left ==> d in order;
      EntryIsToken(es, e);
      IsTokenShaped(e.token);
      forall k | k in KeySet(order)
        ensures Shaped(k)
      {
        var d :| d in order && d.token == k;
        EntryIsToken(es, d);
        IsTokenShaped(k);
      }
      var s' := ReplaceAll(s, e.token, e.original);
      assert OpenFree(e.original);
      ReplaceOpens(s, e.token, e.original, KeySet(order));
      assert forall d :: d in order && d.token != e.token ==> d in left;
      assert KeySet(order) - {e.token} <= KeySet(left);
      OpensAntitone(s', KeySet(order) - {e.token}, KeySet(left));
      UnmaskOpens(s', es, left);
    }
  }

  /** A key in front of a match ends before it, or runs into it or around it. */
  lemma KeyBeforeMatch(t: string, pre: string, a: string, v: string, after: string, j: string)
    requires IsSmallToken(j) && j <= a + v + after && v != "" && a != ""
    requires t == pre + (a + v + after)
    ensures j <= a || InsideToken(t, Span(|pre| + |a|, |pre| + |a| + |v|)) || !BracketFree(v)
  {
    SmallIsToken(j);
    var p: Pattern, n: nat :| n < MANY && j == Token(p, n);
    assert t[|pre|..] == a + v + after;
    assert OccursAt(t, Token(p, n), |pre|);
    var i := |j| - 1;
    assert j[i] == (a + v + after)[i];
    if |a| <= i < |a| + |v| {
      assert v[i - |a|] == ']';
    }
  }

  /** Putting a key in place of a match loses no key in front of it. */
  lemma {:induction false} TokenOpens(t: string, pre: string, a: string, v: string, after: string, token: string,
                                      rest: string, keys: set<string>)
    requires t == pre + (a + v + after)
    requires v != "" && BracketFree(v) && !InsideToken(t, Span(|pre| + |a|, |pre| + |a| + |v|))
    requires token in keys && (forall j :: j in keys ==> IsSmallToken(j))
    requires Opens(rest, keys) <= Opens(after, keys)
    ensures Opens(a + token + rest, keys) <= Opens(a + v + after, keys)
    decreases |a|
  {
    if a == "" {
      SmallIsToken(token);
      OpensToken(token, rest, keys);
      OpensSkips(v, after, keys);
      assert a + v == v && a + token == token;
    } else {
      var c, a' := [a[0]], a[1..];
      assert a == c + a';
      Regroup(c, a', v, after);
      Regroup(c, a', token, rest);
      Regroup(pre, c, a' + v + after, "");
      TokenOpens(t, pre + c, a', v, after, token, rest, keys);
      StartsKeyKept(t, pre, a, v, after, token, rest, keys);
    }
  }

  lemma StartsKeyKept(t: string, pre: string, a: string, v: string, after: string, token: string, rest: string,
                      keys: set<string>)
    requires t == pre + (a + v + after) && a != ""
    requires v != "" && BracketFree(v) && !InsideToken(t, Span(|pre| + |a|, |pre| + |a| + |v|))
    requires forall j :: j in keys ==> IsSmallToken(j)
    ensures StartsKey(a + v + after, keys) ==> StartsKey(a + token + rest, keys)
  {
    if StartsKey(a + v + after, keys) {
      var j :| j in keys && j <= a + v + after;
      KeyBeforeMatch(t, pre, a, v, after, j);
      assert j <= a + token + rest;
    }
  }

  lemma Cut(text: string, from: nat, sp: Span)
    requires from <= sp.lo <= sp.hi <= |text|
    ensures text[from..] == text[from..sp.lo] + text[sp.lo..sp.hi] + text[sp.hi..]
    ensures text == text[..from] + (text[from..sp.lo] + text[sp.lo..sp.hi] + text[sp.hi..])
  {
    assert text[from..] == text[from..sp.lo] + text[sp.lo..sp.hi] + text[sp.hi..];
    assert text == text[..from] + text[from..];
  }

  lemma {:induction false} RewriteOpens(text: string, spans: seq<Span>, from: nat, p: Pattern, es: seq<Entry>,
                                        keys: set<string>)
    requires GoodTail(text, spans, from) && WellFormed(es)
    requires forall j :: j in keys ==> IsSmallToken(j)
    requires KeySet(Rewrite(text, spans, from, p, CountTokens(es, p), es).1) <= keys
    ensures Opens(Rewrite(text, spans, from, p, CountTokens(es, p), es).0, keys) <= Opens(text[from..], keys)
    decreases |spans|
  {
    hide WellFormed, InsideToken, CountTokens, FindToken, Token, BracketFree, Opens;
    if spans != [] {
      var sp := spans[0];
      assert sp in spans;
      var pre, a, v, after := text[..from], text[from..sp.lo], text[sp.lo..sp.hi], text[sp.hi..];
      var look := TokenFor(es, p, CountTokens(es, p), v);
      TokenForFacts(es, p, v);
      GoodTailStep(text, spans, from);
      RewriteOpens(text, spans[1..], sp.hi, p, look.es, keys);
      RewriteGrows(text, spans[1..], sp.hi, p, look.n, look.es);
      var (rest, es') := Rewrite(text, spans[1..], sp.hi, p, look.n, look.es);
      assert look.token in KeySet(es') by { assert es' == look.es + es'[|look.es|..]; }
      Cut(text, from, sp);
      TokenOpens(text, pre, a, v, after, look.token, rest, keys);
    }
  }

  lemma {:induction false} RewriteGrows(text: string, spans: seq<Span>, from: nat, p: Pattern, n: nat, es: seq<Entry>)
    requires SpansFit(text, spans, from)
    ensures es <= Rewrite(text, spans, from, p, n, es).1
    decreases |spans|
  {
    if spans != [] {
      var look := TokenFor(es, p, n, text[spans[0].lo..spans[0].hi]);
      RewriteGrows(text, spans[1..], spans[0].hi, p, look.n, look.es);
    }
  }

  lemma {:induction false} MaskOpens(find: Finder, ps: seq<Pattern>, text: string, es: seq<Entry>, keys: set<string>)
    requires GoodFinder(find) && WellFormed(es)
    requires forall j :: j in keys ==> IsSmallToken(j)
    requires KeySet(MaskFrom(find, ps, text, es).1) <= keys
    ensures Opens(MaskFrom(find, ps, text, es).0, keys) <= Opens(text, keys)
    decreases |ps|
  {
    if ps != [] {
      var spans := find(ps[0], text);
      assert GoodSpans(text, spans);
      assert text[0..] == text;
      var (out, es') := Rewrite(text, spans, 0, ps[0], CountTokens(es, ps[0]), es);
      RewriteKeepsMap(text, spans, 0, ps[0], es);
      MaskKeepsMap(find, ps[1..], out, es');
      var es'' := MaskFrom(find, ps[1..], out, es').1;
      assert KeySet(es') <= KeySet(es'') by { assert es'' == es' + es''[|es'|..]; }
      RewriteOpens(text, spans, 0, ps[0], es, keys);
      MaskOpens(find, ps[1..], out, es', keys);
    }
  }

  lemma {:induction false} RewriteKeepsMap(text: string, spans: seq<Span>, from: nat, p: Pattern, es: seq<Entry>)
    requires GoodTail(text, spans, from) && WellFormed(es)
    ensures var es' := Rewrite(text, spans, from, p, CountTokens(es, p), es).1; WellFormed(es') && es <= es'
    decreases |spans|
  {
    if spans != [] {
      var sp := spans[0];
      assert sp in spans;
      var look := TokenFor(es, p, CountTokens(es, p), text[sp.lo..sp.hi]);
      TokenForFacts(es, p, text[sp.lo..sp.hi]);
      GoodTailStep(text, spans, from);
      RewriteKeepsMap(text, spans[1..], sp.hi, p, look.es);
    }
  }

  lemma {:induction false} MaskKeepsMap(find: Finder, ps: seq<Pattern>, text: string, es: seq<Entry>)
    requires GoodFinder(find) && WellFormed(es)
    ensures var es' := MaskFrom(find, ps, text, es).1; WellFormed(es') && es <= es'
    decreases |ps|
  {
    if ps != [] {
      var spans := find(ps[0], text);
      assert GoodSpans(text, spans);
      RewriteKeepsMap(text, spans, 0, ps[0], es);
      var (out, es') := Rewrite(text, spans, 0, ps[0], CountTokens(es, ps[0]), es);
      MaskKeepsMap(find, ps[1..], out, es');
    }
  }

  // ----- Main results -----

  lemma KeysAreUnique(es: seq<Entry>)
    requires WellFormed(es)
    ensures KeysUnique(es)
  {
    forall d, e | d in es && e in es && d.token == e.token
      ensures d == e
    {
      var i :| 0 <= i < |es| && es[i] == d;
      var j :| 0 <= j < |es| && es[j] == e;
      if i < j { MapOneToOne(es, i, j); } else if j < i { MapOneToOne(es, j, i); }
    }
  }

  /**
   * Unmasking undoes masking, under the map that masking left or any later one and in any walk
   * order, exactly when no key of that map stood in the text already.
   */
  lemma RoundTrip(find: Finder, text: string, es: seq<Entry>, later: seq<Entry>, order: seq<Entry>)
    requires GoodFinder(find) && WellFormed(es) && WellFormed(later) && |later| < MANY
    requires Masked(find, text, es).1 <= later && multiset(order) == multiset(later)
    ensures Unmasked(Masked(find, text, es).0, order) == text <==> forall e :: e in later ==> !Has(text, e.token)
  {
    var (out, grown) := Masked(find, text, es);
    assert forall e :: e in order <==> e in later by {
      assert forall e :: e in order <==> e in multiset(order);
      assert forall e :: e in later <==> e in multiset(later);
    }
    KeysAreUnique(later);
    CharsBacked(text, es);
    var xs := MaskItems(find, PATTERNS, text, es, Chars(text));
    BackedMore(xs, grown, later);
    if forall e :: e in later ==> !Has(text, e.token) {
      BackedWider(xs, later, order);
      UnmaskRestores(xs, later, order);
    } else {
      var e :| e in later && Has(text, e.token);
      HeldKeyLost(find, text, es, later, order, e);
    }
  }

  lemma HeldKeyLost(find: Finder, text: string, es: seq<Entry>, later: seq<Entry>, order: seq<Entry>, e: Entry)
    requires GoodFinder(find) && WellFormed(es) && WellFormed(later) && |later| < MANY
    requires Masked(find, text, es).1 <= later && (forall d :: d in order <==> d in later)
    requires e in later && Has(text, e.token)
    ensures Unmasked(Masked(find, text, es).0, order) != text
  {
    var (out, grown) := Masked(find, text, es);
    var keys := KeySet(order);
    forall k | k in keys
      ensures IsSmallToken(k)
    {
      var d :| d in order && d.token == k;
      EntryIsSmall(later, d);
    }
    assert KeySet(grown) <= keys by { assert later == grown + later[|grown|..]; }
    MaskOpens(find, PATTERNS, text, es, keys);
    UnmaskOpens(out, later, order);
    assert e in order;
    SmallIsToken(e.token);
    HeldKeyCounts(text, e.token, keys);
  }

  /** A text that spells a token of the map is not restored: `[EMAIL_1]` comes back as the address. */
  lemma SpelledTokenIsLost(find: Finder, address: string)
    requires GoodFinder(find) && BracketFree(address)
    ensures var text := Token(Email, 1);
            var (out, grown) := Masked(find, text, [Entry(text, address)]);
            Unmasked(out, grown) != text
  {
    var text := Token(Email, 1);
    var e := Entry(text, address);
    assert IsNext([], text, Email);
    WellFormedAppend([], Email, text, address);
    assert [] + [e] == [e];
    LoneToken(find, PATTERNS, 1, [e]);
    assert Has(text, e.token);
    RoundTrip(find, text, [e], [e], [e]);
  }

  lemma AllInside(n: nat, sp: Span)
    requires n < MANY && sp.hi <= |Token(Email, n)|
    ensures InsideToken(Token(Email, n), sp)
  {
    assert Token(Email, n)[0..] == Token(Email, n);
    assert OccursAt(Token(Email, n), Token(Email, n), 0);
  }

  /** A text that is one placeholder has no match. */
  lemma {:induction false} LoneToken(find: Finder, ps: seq<Pattern>, n: nat, es: seq<Entry>)
    requires GoodFinder(find) && n < MANY
    ensures MaskFrom(find, ps, Token(Email, n), es) == (Token(Email, n), es)
    decreases |ps|
  {
    if ps != [] {
      var text := Token(Email, n);
      var spans := find(ps[0], text);
      assert GoodSpans(text, spans);
      assert text[0..] == text;
      if spans != [] {
        assert spans[0] in spans;
        AllInside(n, spans[0]);
      }
      LoneToken(find, ps[1..], n, es);
    }
  }

  lemma FindUnique(es: seq<Entry>, e: Entry)
    requires WellFormed(es) && e in es
    ensures FindToken(es, e.original) == Some(e.token)
  {
    var found := FindToken(es, e.original);
    var i :| 0 <= i < |es| && es[i] == e;
    var j :| 0 <= j < |es| && es[j] == Entry(found.value, e.original);
  }

  lemma {:induction false} RewriteAgain(text: string, spans: seq<Span>, from: nat, p: Pattern, es: seq<Entry>,
                                        n: nat, later: seq<Entry>)
    requires GoodTail(text, spans, from) && WellFormed(es) && WellFormed(later)
    requires Rewrite(text, spans, from, p, CountTokens(es, p), es).1 <= later
    ensures Rewrite(text, spans, from, p, n, later) == (Rewrite(text, spans, from, p, CountTokens(es, p), es).0, later)
    decreases |spans|
  {
    hide WellFormed, InsideToken, CountTokens, FindToken, Token, BracketFree;
    if spans != [] {
      var sp := spans[0];
      assert sp in spans;
      var v := text[sp.lo..sp.hi];
      var look := TokenFor(es, p, CountTokens(es, p), v);
      TokenForFacts(es, p, v);
      GoodTailStep(text, spans, from);
      RewriteGrows(text, spans[1..], sp.hi, p, look.n, look.es);
      assert Entry(look.token, v) in later by { assert later == look.es + later[|look.es|..]; }
      FindUnique(later, Entry(look.token, v));
      RewriteAgain(text, spans[1..], sp.hi, p, look.es, n, later);
    }
  }

  lemma {:induction false} MaskFromAgain(find: Finder, ps: seq<Pattern>, text: string, es: seq<Entry>,
                                         later: seq<Entry>)
    requires GoodFinder(find) && WellFormed(es) && WellFormed(later)
    requires MaskFrom(find, ps, text, es).1 <= later
    ensures MaskFrom(find, ps, text, later) == (MaskFrom(find, ps, text, es).0, later)
    decreases |ps|
  {
    if ps != [] {
      var spans := find(ps[0], text);
      assert GoodSpans(text, spans);
      var (out, es') := Rewrite(text, spans, 0, ps[0], CountTokens(es, ps[0]), es);
      RewriteKeepsMap(text, spans, 0, ps[0], es);
      MaskKeepsMap(find, ps[1..], out, es');
      RewriteAgain(text, spans, 0, ps[0], es, CountTokens(later, ps[0]), later);
      MaskFromAgain(find, ps[1..], out, es', later);
    }
  }

  /** The texts of one request, masked in order under one map. */
  function MaskAll(find: Finder, texts: seq<string>, es: seq<Entry>): (seq<string>, seq<Entry>)
    requires GoodFinder(find)
  {
    if texts == [] then ([], es)
    else
      var (out, es') := Masked(find, texts[0], es);
      var (outs, es'') := MaskAll(find, texts[1..], es');
      ([out] + outs, es'')
  }

  lemma {:induction false} MaskAllKeepsMap(find: Finder, texts: seq<string>, es: seq<Entry>)
    requires GoodFinder(find) && WellFormed(es)
    ensures var (outs, es') := MaskAll(find, texts, es); |outs| == |texts| && WellFormed(es') && es <= es'
    decreases |texts|
  {
    if texts != [] {
      MaskKeepsMap(find, PATTERNS, texts[0], es);
      MaskAllKeepsMap(find, texts[1..], Masked(find, texts[0], es).1);
    }
  }

  lemma {:induction false} MaskAllAgain(find: Finder, texts: seq<string>, es: seq<Entry>, later: seq<Entry>)
    requires GoodFinder(find) && WellFormed(es) && WellFormed(later) && MaskAll(find, texts, es).1 <= later
    ensures MaskAll(find, texts, later) == (MaskAll(find, texts, es).0, later)
    decreases |texts|
  {
    if texts != [] {
      var es' := Masked(find, texts[0], es).1;
      MaskKeepsMap(find, PATTERNS, texts[0], es);
      MaskAllKeepsMap(find, texts[1..], es');
      MaskFromAgain(find, PATTERNS, texts[0], es, later);
      MaskAllAgain(find, texts[1..], es', later);
    }
  }

  lemma {:induction false} MaskAllConcat(find: Finder, texts: seq<string>, more: seq<string>, es: seq<Entry>)
    requires GoodFinder(find)
    ensures var (outs, es') := MaskAll(find, texts, es);
            var (rest, es'') := MaskAll(find, more, es');
            MaskAll(find, texts + more, es) == (outs + rest, es'')
    decreases |texts|
  {
    if texts == [] {
      assert texts + more == more;
      assert [] + MaskAll(find, more, es).0 == MaskAll(find, more, es).0;
    } else {
      assert (texts + more)[1..] == texts[1..] + more;
      var (out, es1) := Masked(find, texts[0], es);
      MaskAllConcat(find, texts[1..], more, es1);
      var (outs, es') := MaskAll(find, texts[1..], es1);
      assert [out] + (outs + MaskAll(find, more, es').0) == [out] + outs + MaskAll(find, more, es').0;
    }
  }

  /**
   * A conversation that grows is masked afresh for every request: under the map the last request
   * left, or any later one, the old texts come out as before and leave the map alone.
   */
  lemma Remasking(find: Finder, texts: seq<string>, more: seq<string>, es: seq<Entry>, later: seq<Entry>)
    requires GoodFinder(find) && WellFormed(es) && WellFormed(later) && MaskAll(find, texts, es).1 <= later
    ensures var (outs, _) := MaskAll(find, texts, es);
            var (rest, grown) := MaskAll(find, more, later);
            MaskAll(find, texts + more, later) == (outs + rest, grown)
  {
    MaskAllAgain(find, texts, es, later);
    MaskAllConcat(find, texts, more, later);
  }

  /** Every map a run reaches: one-to-one, and numbered without gaps per pattern. */
  lemma ReachedMap(find: Finder, texts: seq<string>, p: Pattern, n: nat)
    requires GoodFinder(find)
    ensures var es := MaskAll(find, texts, []).1;
            && (HasKey(es, Token(p, n)) <==> 1 <= n <= CountTokens(es, p))
            && KeysUnique(es)
            && (forall i, j :: 0 <= i < j < |es| ==> es[i].original != es[j].original)
  {
    MaskAllKeepsMap(find, texts, []);
    var es := MaskAll(find, texts, []).1;
    KeysNumbered(es, p, n);
    KeysAreUnique(es);
  }
}
