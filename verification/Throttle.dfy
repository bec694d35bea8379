/** How often a stream of tokens is flushed. */
module Throttle {
  import opened Domain
  import opened Store
  import opened Runtime

  /** How many chunks of its own a run has published. */
  function Sent(seg: seq<Moment>, id: string): nat {
    if seg == [] then 0
    else
      var e := seg[|seg| - 1].event;
      Sent(seg[..|seg| - 1], id) + if e.Published? && e.topic == RunToken && e.id == id && e.via == None then 1 else 0
  }

  lemma {:induction false} SentAdds(a: seq<Moment>, b: seq<Moment>, id: string)
    ensures Sent(a + b, id) == Sent(a, id) + Sent(b, id)
    decreases |b|
  {
    if b == [] {
      assert a + b == a;
    } else {
      assert (a + b)[..|a + b| - 1] == a + b[..|b| - 1];
      SentAdds(a, b[..|b| - 1], id);
    }
  }

  /** A delta flushes the buffer exactly if 90 milliseconds have passed since the last flush. */
  lemma FlushCounts(w: World, s: Stream, now: int)
    ensures var (w', s') := Flush(w, s, false, now);
            && w.trace <= w'.trace && s' == s.(buf := s'.buf, last := s'.last)
            && if s.buf != "" && now - s.last >= 90 then Sent(New(w, w'), s.id) == 1 && s'.buf == "" && s'.last == now
               else Sent(New(w, w'), s.id) == 0 && s' == s
  {
    var w' := Flush(w, s, false, now).0;
    var own := Moment(Published(RunToken, s.id, s.buf, None), w.runs);
    assert [own][..0] == [];
    if s.buf != "" && now - s.last >= FLUSH_MS {
      if s.bridge.Some? {
        var to := Moment(Published(RunToken, s.bridge.value.parent, s.buf, Some(s.bridge.value.subtask)), w.runs);
        assert New(w, w') == [own] + [to];
        assert [to][..0] == [] && [own][..0] == [];
        SentAdds([own], [to], s.id);
        assert Sent([own], s.id) == 1 && Sent([to], s.id) == 0;
      } else {
        assert New(w, w') == [own];
      }
    } else {
      assert New(w, w') == [];
    }
  }

  /** Between turns chunks come at least 90 milliseconds apart, and after the last delta nothing has waited longer. */
  lemma {:induction false} Throttled(w: World, s: Stream, deltas: seq<Delta>)
    requires s.on
    ensures var (w', s') := Hear(w, s, deltas);
            && w.trace <= w'.trace && s'.on && s'.id == s.id
            && 90 * Sent(New(w, w'), s.id) <= s'.last - s.last
            && (deltas != [] ==> s'.buf == "" || deltas[|deltas| - 1].at - s'.last < 90)
    decreases |deltas|
  {
    hide Flush;
    if deltas == [] {
      assert New(w, w) == [];
    } else {
      var s0 := s.(buf := s.buf + deltas[0].text);
      FlushCounts(w, s0, deltas[0].at);
      var (w1, s1) := Flush(w, s0, false, deltas[0].at);
      Throttled(w1, s1, deltas[1..]);
      var w' := Hear(w1, s1, deltas[1..]).0;
      NewConcat(w, w1, w');
      SentAdds(New(w, w1), New(w1, w'), s.id);
    }
  }
}
