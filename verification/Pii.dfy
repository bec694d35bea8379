/** Masking by four rewriting passes, and unmasking. */
module Pii {
  import opened Decimal
  import opened Domain

  // ----- Tokens -----

  datatype Pattern = Email | Card | Phone | Passport

  const PATTERNS: seq<Pattern> := [Email, Card, Phone, Passport]

  function Name(p: Pattern): string {
    match p
    case Email => "EMAIL"
    case Card => "CARD"
    case Phone => "PHONE"
    case Passport => "PASSPORT"
  }

  function Prefix(p: Pattern): string {
    "[" + Name(p) + "_"
  }

  function Token(p: Pattern, n: nat): Key {
    Prefix(p) + ToString(n) + "]"
  }

  predicate BracketFree(s: string) {
    forall i :: 0 <= i < |s| ==> s[i] != '[' && s[i] != ']'
  }

  predicate OpenFree(s: string) {
    '[' !in s
  }

  /** An opening bracket, a bracket-free body, a closing bracket. */
  predicate Shaped(t: string) {
    && |t| >= 2
    && t[0] == '['
    && t[|t| - 1] == ']'
    && BracketFree(t[1..|t| - 1])
  }

  lemma TokenShaped(p: Pattern, n: nat)
    ensures Shaped(Token(p, n))
  {
    var t := Token(p, n);
    assert t[1..|t| - 1] == Name(p) + "_" + ToString(n);
  }

  /** The pattern of a token can be read off its prefix, and its number off the rest. */
  lemma TokenInjective(p: Pattern, m: nat, q: Pattern, n: nat)
    ensures Prefix(q) <= Token(p, m) <==> p == q
    ensures Token(p, m) == Token(q, n) ==> p == q && m == n
  {
    var t := Token(p, m);
    assert t == Prefix(p) + (ToString(m) + "]");
    if p == q {
      assert Prefix(q) <= t;
    } else {
      assert t[1] == Name(p)[0] && Prefix(q)[1] == Name(q)[0];
      assert t[2] == Name(p)[1] && Prefix(q)[2] == Name(q)[1];
    }
    if Token(p, m) == Token(q, n) {
      assert Prefix(q) <= Token(q, n) by { assert Token(q, n) == Prefix(q) + (ToString(n) + "]"); }
      assert p == q;
      assert ToString(m) == t[|Prefix(p)|..|t| - 1] == ToString(n);
      ToStringInjective(m, n);
    }
  }

  // ----- The token map, in insertion order -----

  type Key = k: string | k != "" witness "k"

  datatype Entry = Entry(token: Key, original: string)

  /** How many keys carry the pattern's prefix. */
  function CountTokens(es: seq<Entry>, p: Pattern): nat {
    if es == [] then 0
    else CountTokens(es[..|es| - 1], p) + if Prefix(p) <= es[|es| - 1].token then 1 else 0
  }

  /** The first key that holds the value. */
  function FindToken(es: seq<Entry>, original: string): (r: Option<Key>)
    ensures r.None? <==> forall i :: 0 <= i < |es| ==> es[i].original != original
    ensures r.Some? ==> Entry(r.value, original) in es
  {
    if es == [] then None
    else if es[0].original == original then Some(es[0].token)
    else
      var r := FindToken(es[1..], original);
      assert r.Some? ==> Entry(r.value, original) in es[1..];
      r
  }

  /** The key numbers one more of its pattern than the map holds. */
  predicate IsNext(es: seq<Entry>, token: string, p: Pattern) {
    token == Token(p, CountTokens(es, p) + 1)
  }

  /** The i-th key was the next number of its pattern when it was added. */
  ghost predicate Numbered(es: seq<Entry>, i: nat)
    requires i < |es|
  {
    exists p :: IsNext(es[..i], es[i].token, p)
  }

  /** What every map grown by `mask` from the empty one looks like. */
  ghost predicate WellFormed(es: seq<Entry>) {
    && (forall i :: 0 <= i < |es| ==> Numbered(es, i))
    && (forall i :: 0 <= i < |es| ==> BracketFree(es[i].original))
    && (forall i, j :: 0 <= i < j < |es| ==> es[i].original != es[j].original)
  }

  // ----- Matches -----

  datatype Span = Span(lo: nat, hi: nat)

  predicate OccursAt(t: string, k: string, s: nat) {
    s <= |t| && k <= t[s..]
  }

  /** `text.includes(k)`. */
  predicate Has(t: string, k: string) {
    k <= t || (t != "" && Has(t[1..], k))
  }

  predicate SpansFit(t: string, spans: seq<Span>, from: nat) {
    && from <= |t|
    && (forall i :: 0 <= i < |spans| ==> from <= spans[i].lo < spans[i].hi <= |t|)
    && (forall i, j :: 0 <= i < j < |spans| ==> spans[i].hi <= spans[j].lo)
  }

  /** Eleven digits in a row are a phone number to the patterns, so placeholders are told apart up to ten. */
  const MANY := 10_000_000_000

  ghost predicate InsideToken(t: string, sp: Span) {
    exists p: Pattern, n: nat, s: nat :: n < MANY && OccursAt(t, Token(p, n), s) && s <= sp.lo
        && sp.hi <= s + |Token(p, n)|
  }

  ghost predicate GoodSpans(t: string, spans: seq<Span>) {
    && SpansFit(t, spans, 0)
    && forall sp :: sp in spans ==> BracketFree(t[sp.lo..sp.hi]) && !InsideToken(t, sp)
  }

  /** A regular expression, from pattern and text to the matched spans; `GoodFinder` is all that is assumed of it. */
  type Finder = (Pattern, string) -> seq<Span>

  /**
   * Matches are non-empty, disjoint, left to right, bracket-free and never inside a placeholder of at most
   * ten digits.
   */
  ghost predicate GoodFinder(find: Finder) {
    forall p, t :: GoodSpans(t, find(p, t))
  }

  // ----- mask -----

  datatype Lookup = Lookup(token: Key, n: nat, es: seq<Entry>)

  /** The callback of `replace`: the token of a match, new or known, and the map after it. */
  function TokenFor(es: seq<Entry>, p: Pattern, n: nat, original: string): Lookup {
    match FindToken(es, original)
    case Some(token) => Lookup(token, n, es)
    case None =>
      var token := Token(p, n + 1);
      Lookup(token, n + 1, es + [Entry(token, original)])
  }

  /** One `replace`: the text from `from` on with every match replaced by its token. */
  function Rewrite(text: string, spans: seq<Span>, from: nat, p: Pattern, n: nat, es: seq<Entry>): (string, seq<Entry>)
    requires SpansFit(text, spans, from)
  {
    if spans == [] then (text[from..], es)
    else
      var sp := spans[0];
      var look := TokenFor(es, p, n, text[sp.lo..sp.hi]);
      var (rest, es') := Rewrite(text, spans[1..], sp.hi, p, look.n, look.es);
      (text[from..sp.lo] + look.token + rest, es')
  }

  function MaskFrom(find: Finder, ps: seq<Pattern>, text: string, es: seq<Entry>): (string, seq<Entry>)
    requires GoodFinder(find)
  {
    if ps == [] then (text, es)
    else
      assert GoodSpans(text, find(ps[0], text));
      var (out, es') := Rewrite(text, find(ps[0], text), 0, ps[0], CountTokens(es, ps[0]), es);
      MaskFrom(find, ps[1..], out, es')
  }

  function Masked(find: Finder, text: string, es: seq<Entry>): (string, seq<Entry>)
    requires GoodFinder(find)
  {
    MaskFrom(find, PATTERNS, text, es)
  }

  // ----- unmask -----

  function Split(s: string, k: Key): (parts: seq<string>)
    ensures parts != []
  {
    if s == "" then [""]
    else if k <= s then [""] + Split(s[|k|..], k)
    else
      var parts := Split(s[1..], k);
      [[s[0]] + parts[0]] + parts[1..]
  }

  function Join(parts: seq<string>, sep: string): string
    requires parts != []
  {
    if |parts| == 1 then parts[0] else parts[0] + sep + Join(parts[1..], sep)
  }

  /** Left-to-right replacement of every occurrence of `k`. */
  function ReplaceAll(s: string, k: Key, v: string): string
  {
    if s == "" then ""
    else if k <= s then v + ReplaceAll(s[|k|..], k, v)
    else [s[0]] + ReplaceAll(s[1..], k, v)
  }

  lemma {:induction false} SplitJoin(s: string, k: Key, v: string)
    ensures Join(Split(s, k), v) == ReplaceAll(s, k, v)
  {
    if s == "" {
    } else if k <= s {
      SplitJoin(s[|k|..], k, v);
      var parts := Split(s[|k|..], k);
      assert ([""] + parts)[1..] == parts;
      assert "" + v + Join(parts, v) == v + Join(parts, v);
    } else {
      SplitJoin(s[1..], k, v);
      var parts := Split(s[1..], k);
      var longer := [[s[0]] + parts[0]] + parts[1..];
      assert Split(s, k) == longer;
      if |parts| == 1 {
      } else {
        assert longer[1..] == parts[1..];
        assert [s[0]] + parts[0] + v + Join(parts[1..], v) == [s[0]] + (parts[0] + v + Join(parts[1..], v));
      }
    }
  }

  /** The walk over the map, in the order the entries are given. */
  function Unmasked(s: string, order: seq<Entry>): string
    decreases |order|
  {
    if order == [] then s
    else Unmasked(ReplaceAll(s, order[0].token, order[0].original), order[1..])
  }
}
