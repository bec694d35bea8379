/** What masking does to a text. */
module PiiPasses {
  import opened Decimal
  import opened Domain
  import opened Pii
  import opened PiiTheorems

  /** The text from `from` on with a token in place of every span. */
  function Filled(text: string, spans: seq<Span>, tokens: seq<Key>, from: nat): string
    requires SpansFit(text, spans, from) && |tokens| == |spans|
    decreases |spans|
  {
    if spans == [] then text[from..]
    else text[from..spans[0].lo] + tokens[0] + Filled(text, spans[1..], tokens[1..], spans[0].hi)
  }

  /** The matched values. */
  function Matches(text: string, spans: seq<Span>): (vals: seq<string>)
    requires forall i :: 0 <= i < |spans| ==> spans[i].lo <= spans[i].hi <= |text|
    ensures |vals| == |spans|
  {
    seq(|spans|, i requires 0 <= i < |spans| => text[spans[i].lo..spans[i].hi])
  }

  predicate Holds(es: seq<Entry>, value: string) {
    exists i :: 0 <= i < |es| && es[i].original == value
  }

  function FirstAt(vals: seq<string>, value: string): nat {
    if vals == [] || vals[0] == value then 0 else 1 + FirstAt(vals[1..], value)
  }

  /** The map takes every token to its value. */
  predicate Mapped(es: seq<Entry>, tokens: seq<Key>, vals: seq<string>)
    requires |tokens| == |vals|
  {
    forall i :: 0 <= i < |vals| ==> Entry(tokens[i], vals[i]) in es
  }

  /** The values the map does not hold yet, each once, in the order they are first met. */
  ghost predicate NewOnes(es: seq<Entry>, vals: seq<string>, news: seq<string>) {
    && (forall v :: v in news <==> v in vals && !Holds(es, v))
    && forall i, j :: 0 <= i < j < |news| ==> FirstAt(vals, news[i]) < FirstAt(vals, news[j])
  }

  /** New values numbered on from `n`. */
  function Entries(p: Pattern, n: nat, news: seq<string>): seq<Entry> {
    seq(|news|, k requires 0 <= k < |news| => Entry(Token(p, n + k + 1), news[k]))
  }

  /**
   * One pass: every match is replaced by the token its value has in the map, and the map has grown by
   * the new values under the next numbers of the pass's own pattern.
   */
  ghost predicate PassBy(find: Finder, p: Pattern, text: string, es: seq<Entry>, out: string, es': seq<Entry>,
                         tokens: seq<Key>, news: seq<string>)
  {
    var spans := find(p, text);
    && SpansFit(text, spans, 0) && |tokens| == |spans|
    && out == Filled(text, spans, tokens, 0)
    && Mapped(es', tokens, Matches(text, spans))
    && NewOnes(es, Matches(text, spans), news)
    && es' == es + Entries(p, CountTokens(es, p), news)
  }

  ghost predicate Pass(find: Finder, p: Pattern, text: string, es: seq<Entry>, out: string, es': seq<Entry>) {
    exists tokens, news :: PassBy(find, p, text, es, out, es', tokens, news)
  }

  /** Addresses first, then cards, phones and passports, each pass on the text the one before has left. */
  ghost predicate FourPasses(find: Finder, text: string, es: seq<Entry>, out: string, es': seq<Entry>) {
    exists t1, e1, t2, e2, t3, e3 ::
      && Pass(find, Email, text, es, t1, e1) && Pass(find, Card, t1, e1, t2, e2)
      && Pass(find, Phone, t2, e2, t3, e3) && Pass(find, Passport, t3, e3, out, es')
  }

  lemma CountNext(es: seq<Entry>, p: Pattern, n: nat, value: string)
    ensures CountTokens(es + [Entry(Token(p, n), value)], p) == CountTokens(es, p) + 1
  {
    TokenInjective(p, n, p, n);
    assert (es + [Entry(Token(p, n), value)])[..|es|] == es;
  }

  lemma KnownValue(es: seq<Entry>, vals: seq<string>, news: seq<string>)
    requires vals != [] && Holds(es, vals[0]) && NewOnes(es, vals[1..], news)
    ensures NewOnes(es, vals, news)
  {
    assert forall v :: v in vals <==> v == vals[0] || v in vals[1..];
    assert forall i :: 0 <= i < |news| ==> news[i] in news;
    assert forall i :: 0 <= i < |news| ==> FirstAt(vals, news[i]) == 1 + FirstAt(vals[1..], news[i]);
  }

  lemma NewValue(es: seq<Entry>, e: Entry, vals: seq<string>, news: seq<string>)
    requires vals != [] && e.original == vals[0] && !Holds(es, vals[0]) && NewOnes(es + [e], vals[1..], news)
    ensures NewOnes(es, vals, [vals[0]] + news)
  {
    assert forall v :: v in vals <==> v == vals[0] || v in vals[1..];
    HoldsMore(es, e);
    assert forall i :: 0 <= i < |news| ==> news[i] in news;
    assert forall i :: 0 <= i < |news| ==> FirstAt(vals, news[i]) == 1 + FirstAt(vals[1..], news[i]);
  }

  lemma HoldsMore(es: seq<Entry>, e: Entry)
    ensures forall v :: Holds(es + [e], v) <==> Holds(es, v) || v == e.original
  {
    forall v
      ensures Holds(es + [e], v) <==> Holds(es, v) || v == e.original
    {
      assert (es + [e])[|es|] == e;
      if i :| 0 <= i < |es| && es[i].original == v { assert (es + [e])[i] == es[i]; }
    }
  }

  lemma {:induction false} RewritePass(text: string, spans: seq<Span>, from: nat, p: Pattern, es: seq<Entry>)
      returns (tokens: seq<Key>, news: seq<string>)
    requires SpansFit(text, spans, from)
    ensures var (out, es') := Rewrite(text, spans, from, p, CountTokens(es, p), es);
            && |tokens| == |spans| && out == Filled(text, spans, tokens, from)
            && Mapped(es', tokens, Matches(text, spans))
            && NewOnes(es, Matches(text, spans), news) && es' == es + Entries(p, CountTokens(es, p), news)
    decreases |spans|
  {
    hide Token, CountTokens, NewOnes, Mapped, Entries;
    if spans == [] {
      tokens, news := [], [];
      NothingNew(es, p);
    } else {
      var vals := Matches(text, spans);
      var look := TokenFor(es, p, CountTokens(es, p), vals[0]);
      assert vals[1..] == Matches(text, spans[1..]);
      LookedUp(es, p, vals[0]);
      var rest, news' := RewritePass(text, spans[1..], spans[0].hi, p, look.es);
      tokens := [look.token] + rest;
      assert tokens[1..] == rest;
      news := PassStep(es, p, vals, rest, news');
    }
  }

  lemma LookedUp(es: seq<Entry>, p: Pattern, value: string)
    ensures var look := TokenFor(es, p, CountTokens(es, p), value);
            look.n == CountTokens(look.es, p) && Entry(look.token, value) in look.es
  {
    CountNext(es, p, CountTokens(es, p) + 1, value);
  }

  lemma PassStep(es: seq<Entry>, p: Pattern, vals: seq<string>, rest: seq<Key>, news': seq<string>)
      returns (news: seq<string>)
    requires vals != [] && |rest| == |vals| - 1
    requires var look := TokenFor(es, p, CountTokens(es, p), vals[0]);
             var es' := look.es + Entries(p, CountTokens(look.es, p), news');
             Mapped(es', rest, vals[1..]) && NewOnes(look.es, vals[1..], news')
    ensures var look := TokenFor(es, p, CountTokens(es, p), vals[0]);
            var es' := look.es + Entries(p, CountTokens(look.es, p), news');
            && Mapped(es', [look.token] + rest, vals) && NewOnes(es, vals, news)
            && es' == es + Entries(p, CountTokens(es, p), news)
  {
    hide Token, CountTokens, NewOnes;
    var n := CountTokens(es, p);
    var look := TokenFor(es, p, n, vals[0]);
    LookedUp(es, p, vals[0]);
    FindHolds(es, vals[0]);
    CountNext(es, p, n + 1, vals[0]);
    MappedFirst(look.es, Entries(p, CountTokens(look.es, p), news'), look.token, rest, vals);
    if FindToken(es, vals[0]).Some? {
      news := news';
      KnownValue(es, vals, news);
    } else {
      news := [vals[0]] + news';
      NewValue(es, Entry(look.token, vals[0]), vals, news');
      assert Entries(p, n, news) == [Entry(look.token, vals[0])] + Entries(p, n + 1, news');
    }
  }

  lemma MappedFirst(es: seq<Entry>, more: seq<Entry>, token: Key, rest: seq<Key>, vals: seq<string>)
    requires vals != [] && |rest| == |vals| - 1 && Entry(token, vals[0]) in es && Mapped(es + more, rest, vals[1..])
    ensures Mapped(es + more, [token] + rest, vals)
  {
    forall i | 0 <= i < |vals|
      ensures Entry(([token] + rest)[i], vals[i]) in es + more
    {
      if i > 0 { assert Entry(rest[i - 1], vals[1..][i - 1]) in es + more; }
    }
  }

  lemma FindHolds(es: seq<Entry>, value: string)
    ensures FindToken(es, value).Some? <==> Holds(es, value)
  {}

  lemma NothingNew(es: seq<Entry>, p: Pattern)
    ensures NewOnes(es, [], []) && Mapped(es, [], []) && es == es + Entries(p, CountTokens(es, p), [])
  {}

  lemma OnePass(find: Finder, p: Pattern, text: string, es: seq<Entry>)
    requires GoodFinder(find)
    ensures SpansFit(text, find(p, text), 0)
    ensures var (out, es') := Rewrite(text, find(p, text), 0, p, CountTokens(es, p), es);
            Pass(find, p, text, es, out, es')
  {
    assert GoodSpans(text, find(p, text));
    hide InsideToken, NewOnes, Entries, Filled, Rewrite, CountTokens, Mapped;
    var tokens, news := RewritePass(text, find(p, text), 0, p, es);
    var (out, es') := Rewrite(text, find(p, text), 0, p, CountTokens(es, p), es);
    assert PassBy(find, p, text, es, out, es', tokens, news);
  }

  /** Masking is the four passes. */
  lemma MaskedPasses(find: Finder, text: string, es: seq<Entry>)
    requires GoodFinder(find)
    ensures FourPasses(find, text, es, Masked(find, text, es).0, Masked(find, text, es).1)
  {
    hide Pass, Rewrite, CountTokens, GoodSpans, SpansFit, MaskFrom, GoodFinder;
    OnePass(find, Email, text, es);
    var (t1, e1) := Rewrite(text, find(Email, text), 0, Email, CountTokens(es, Email), es);
    OnePass(find, Card, t1, e1);
    var (t2, e2) := Rewrite(t1, find(Card, t1), 0, Card, CountTokens(e1, Card), e1);
    OnePass(find, Phone, t2, e2);
    var (t3, e3) := Rewrite(t2, find(Phone, t2), 0, Phone, CountTokens(e2, Phone), e2);
    OnePass(find, Passport, t3, e3);
    MaskUnrolled(find, text, es, t1, e1, t2, e2, t3, e3);
  }

  lemma MaskUnrolled(find: Finder, text: string, es: seq<Entry>, t1: string, e1: seq<Entry>, t2: string, e2: seq<Entry>,
                     t3: string, e3: seq<Entry>)
    requires GoodFinder(find)
    requires SpansFit(text, find(Email, text), 0) && SpansFit(t1, find(Card, t1), 0)
    requires SpansFit(t2, find(Phone, t2), 0) && SpansFit(t3, find(Passport, t3), 0)
    requires (t1, e1) == Rewrite(text, find(Email, text), 0, Email, CountTokens(es, Email), es)
    requires (t2, e2) == Rewrite(t1, find(Card, t1), 0, Card, CountTokens(e1, Card), e1)
    requires (t3, e3) == Rewrite(t2, find(Phone, t2), 0, Phone, CountTokens(e2, Phone), e2)
    ensures Masked(find, text, es) == Rewrite(t3, find(Passport, t3), 0, Passport, CountTokens(e3, Passport), e3)
  {
    hide Rewrite, CountTokens, InsideToken;
    assert PATTERNS[1..] == [Card, Phone, Passport] && [Card, Phone, Passport][1..] == [Phone, Passport]
           && [Phone, Passport][1..] == [Passport] && [Passport][1..] == [];
    assert MaskFrom(find, [Card, Phone, Passport], t1, e1) == Masked(find, text, es);
    assert MaskFrom(find, [Phone, Passport], t2, e2) == MaskFrom(find, [Card, Phone, Passport], t1, e1);
    assert MaskFrom(find, [Passport], t3, e3) == MaskFrom(find, [Phone, Passport], t2, e2);
  }

  // ----- Nothing slips through -----

  /** Every match of a pattern in a text is a value of the map. */
  ghost predicate AllHeld(find: Finder, p: Pattern, text: string, es: seq<Entry>) {
    && SpansFit(text, find(p, text), 0)
    && forall i :: 0 <= i < |find(p, text)| ==> Holds(es, Matches(text, find(p, text))[i])
  }

  lemma PassHolds(find: Finder, p: Pattern, text: string, es: seq<Entry>, out: string, es': seq<Entry>)
    requires Pass(find, p, text, es, out, es')
    ensures AllHeld(find, p, text, es') && es <= es'
  {
    var tokens, news :| PassBy(find, p, text, es, out, es', tokens, news);
    var vals := Matches(text, find(p, text));
    forall i | 0 <= i < |vals|
      ensures Holds(es', vals[i])
    {
      assert Entry(tokens[i], vals[i]) in es';
      var k :| 0 <= k < |es'| && es'[k] == Entry(tokens[i], vals[i]);
    }
  }

  lemma HeldLater(find: Finder, p: Pattern, text: string, es: seq<Entry>, later: seq<Entry>)
    requires AllHeld(find, p, text, es) && es <= later
    ensures AllHeld(find, p, text, later)
  {
    forall i | 0 <= i < |find(p, text)|
      ensures Holds(later, Matches(text, find(p, text))[i])
    {
      assert Holds(es, Matches(text, find(p, text))[i]);
      var k :| 0 <= k < |es| && es[k].original == Matches(text, find(p, text))[i];
      assert later[k] == es[k];
    }
  }

  /** Nothing that one of the four passes finds is missing from the map. */
  lemma NothingSlips(find: Finder, text: string, es: seq<Entry>) returns (t1: string, t2: string, t3: string)
    requires GoodFinder(find)
    ensures var es' := Masked(find, text, es).1;
            && AllHeld(find, Email, text, es') && AllHeld(find, Card, t1, es')
            && AllHeld(find, Phone, t2, es') && AllHeld(find, Passport, t3, es') && es <= es'
  {
    hide GoodFinder, AllHeld, Pass, Masked;
    MaskedPasses(find, text, es);
    var (out, es') := Masked(find, text, es);
    var e1, e2, e3;
    t1, e1, t2, e2, t3, e3 :|
      && Pass(find, Email, text, es, t1, e1) && Pass(find, Card, t1, e1, t2, e2)
      && Pass(find, Phone, t2, e2, t3, e3) && Pass(find, Passport, t3, e3, out, es');
    PassHolds(find, Email, text, es, t1, e1);
    PassHolds(find, Card, t1, e1, t2, e2);
    PassHolds(find, Phone, t2, e2, t3, e3);
    PassHolds(find, Passport, t3, e3, out, es');
    HeldLater(find, Email, text, e1, es');
    HeldLater(find, Card, t1, e2, es');
    HeldLater(find, Phone, t2, e3, es');
  }

  const WRITE := "write to a@b.co"

  /** One address and nothing else: it leaves as the first token, and the map has it. */
  lemma AddressHidden(find: Finder)
    requires GoodFinder(find) && find(Email, WRITE) == [Span(9, 15)]
    requires forall p :: p != Email ==> find(p, "write to [EMAIL_1]") == []
    ensures Masked(find, WRITE, []) == ("write to [EMAIL_1]", [Entry("[EMAIL_1]", "a@b.co")])
  {
    hide GoodFinder, Rewrite, CountTokens, Masked;
    var out, es: seq<Entry> := "write to [EMAIL_1]", [Entry("[EMAIL_1]", "a@b.co")];
    AddressRewritten();
    NothingFound(out, Card, es);
    NothingFound(out, Phone, es);
    NothingFound(out, Passport, es);
    MaskUnrolled(find, WRITE, [], out, es, out, es, out, es);
  }

  lemma NothingFound(text: string, p: Pattern, es: seq<Entry>)
    ensures SpansFit(text, [], 0) && Rewrite(text, [], 0, p, CountTokens(es, p), es) == (text, es)
  {
    assert text[0..] == text;
  }

  lemma AddressRewritten()
    ensures SpansFit(WRITE, [Span(9, 15)], 0) && CountTokens([], Email) == 0
    ensures Rewrite(WRITE, [Span(9, 15)], 0, Email, 0, []) == ("write to [EMAIL_1]", [Entry("[EMAIL_1]", "a@b.co")])
  {
    assert WRITE[9..15] == "a@b.co" && WRITE[0..9] == "write to " && WRITE[15..] == "";
    FirstAddress();
    hide Token;
    assert TokenFor([], Email, 0, "a@b.co") == Lookup("[EMAIL_1]", 1, [Entry("[EMAIL_1]", "a@b.co")]);
    var es := [Entry("[EMAIL_1]", "a@b.co")];
    assert [Span(9, 15)][1..] == [] && [] + es == es;
    assert Rewrite(WRITE, [], 15, Email, 1, es) == ("", es);
    assert "write to " + "[EMAIL_1]" + "" == "write to [EMAIL_1]";
    assert WRITE[0..9] + "[EMAIL_1]" + "" == "write to [EMAIL_1]";
  }

  lemma FirstAddress()
    ensures Token(Email, 1) == "[EMAIL_1]"
  {
    assert ToString(1) == "1";
  }
}
