/**
 * TCP sessions over a byte stream with a frame error. How such a stream was cut into reads can show; these are exactly
 * the sessions it can give, and exactly the streams for which it does not show.
 */
module TcpFrameErrors {
  import opened Bytes
  import opened Wrappers
  import opened OtkProtocol
  import opened FrameTypes
  import opened StreamCodec
  import opened TcpSessions

  /** One way for the bytes `s` to arrive. */
  ghost predicate Cuts(chunks: seq<seq<byte>>, s: seq<byte>) {
    Proper(chunks) && Flatten(chunks) == s
  }

  // ---- reading ahead ----

  /** A session with a frame error still to come. */
  ghost predicate Dirty(codec: EnvelopeCodec, max: nat, s: Link) {
    Proper(s.ahead) && Settled(codec, max, s.skip, s.buf) && !AllOk(AheadOf(codec, max, s).results)
  }

  lemma {:induction false} LeadingConcat(a: seq<Decoded>, b: seq<Decoded>)
    requires AllOk(a)
    ensures Leading(a + b) == Values(a) + Leading(b)
    ensures AllOk(a + b) <==> AllOk(b)
    decreases |a|
  {
    if a == [] {
      assert a + b == b && Values(a) + Leading(b) == Leading(b);
    } else {
      assert a == [a[0]] + a[1..] && (a + b)[1..] == a[1..] + b;
      OkTail(a);
      OkTail(a + b);
      hide AllOk, Values;
      LeadingConcat(a[1..], b);
    }
  }

  lemma {:induction false} OkTail(rs: seq<Decoded>)
    requires rs != []
    ensures AllOk(rs) <==> rs[0].Ok? && AllOk(rs[1..])
    ensures AllOk(rs) ==> Values(rs) == [rs[0].value] + Values(rs[1..])
  {
    var tail := rs[1..];
    assert forall i :: 0 < i < |rs| ==> rs[i] == tail[i - 1];
    if AllOk(tail) && rs[0].Ok? {
      forall i | 0 <= i < |rs|
        ensures rs[i].Ok?
      {
        assert i > 0 ==> tail[i - 1].Ok?;
      }
    }
  }

  lemma {:induction false} NothingAhead(codec: EnvelopeCodec, max: nat, s: Link)
    requires Settled(codec, max, s.skip, s.buf)
    ensures s.ahead == [] ==> AllOk(AheadOf(codec, max, s).results)
  {
    hide Parse;
    if s.ahead == [] {
      assert s.buf + Flatten(s.ahead) == s.buf;
      SettledParse(codec, max, s.skip, s.buf);
    }
  }

  lemma {:induction false} DirtyIgnoresPending(codec: EnvelopeCodec, max: nat, s: Link, t: Link)
    requires Dirty(codec, max, s) && t.(pending := s.pending) == s
    ensures Dirty(codec, max, t) && AheadOf(codec, max, t) == AheadOf(codec, max, s)
  {
    hide Parse;
  }

  /** With a frame error to come, reading ahead meets it or takes envelopes in front of it. */
  lemma {:induction false} FillMeetsError(codec: EnvelopeCodec, max: nat, s: Link)
    requires Dirty(codec, max, s)
    ensures var f := Fill(codec, max, s.skip, s.buf, s.ahead);
            && !f.how.Eof?
            && (f.how.Got? ==>
                  && Dirty(codec, max, f.link)
                  && Leading(AheadOf(codec, max, s).results)
                     == f.link.pending + Leading(AheadOf(codec, max, f.link).results))
    decreases |s.ahead|
  {
    hide Parse, Settled;
    NothingAhead(codec, max, s);
    var chunk, rest := s.ahead[0], s.ahead[1..];
    assert [chunk] + rest == s.ahead && chunk in s.ahead;
    var p := Parse(codec, max, s.skip, s.buf + chunk);
    var t := Link([], p.skip, p.rest, rest);
    FillStep(codec, max, s.skip, s.buf, chunk, rest);
    if AllOk(p.results) {
      LeadingConcat(p.results, AheadOf(codec, max, t).results);
      ProperRest(s.ahead);
      assert Dirty(codec, max, t);
      hide AheadOf, Dirty, AllOk, Proper, Leading;
      if p.results == [] {
        FillMeetsError(codec, max, t);
        assert Values(p.results) + Leading(AheadOf(codec, max, t).results) == Leading(AheadOf(codec, max, t).results);
      } else {
        DirtyIgnoresPending(codec, max, t, t.(pending := Values(p.results)));
      }
    }
  }

  // ---- the sessions a stream can give ----

  /** A session is driven by what it holds and some first part of the envelopes in front of the error. */
  lemma {:induction false} RunMeetsError(codec: EnvelopeCodec, max: nat, process: OtkEnvelope -> Action, s: Link)
    returns (k: nat)
    requires Dirty(codec, max, s)
    ensures var front := Leading(AheadOf(codec, max, s).results);
            k <= |front| && RunOf(codec, max, process, s) == Driven(process, s.pending + front[..k], true)
    decreases |s.ahead|, |s.pending|
  {
    hide Fill, AheadOf, Dirty, Settled, Proper, AllOk, Leading;
    var front := Leading(AheadOf(codec, max, s).results);
    if s.pending == [] {
      FillMeetsError(codec, max, s);
      FillReads(codec, max, s.skip, s.buf, s.ahead);
      var f := Fill(codec, max, s.skip, s.buf, s.ahead);
      if f.how.Got? {
        RunSkipsFill(codec, max, process, s);
        var m := RunMeetsError(codec, max, process, f.link);
        k := |f.link.pending| + m;
        assert s.pending + front[..k] == f.link.pending + Leading(AheadOf(codec, max, f.link).results)[..m];
      } else {
        k := 0;
        assert s.pending + front[..0] == [];
      }
    } else {
      var t := s.(pending := s.pending[1..]);
      DirtyIgnoresPending(codec, max, s, t);
      k := RunMeetsError(codec, max, process, t);
      var es := s.pending + front[..k];
      assert es[0] == s.pending[0] && es[1..] == t.pending + front[..k];
      RunDispatches(codec, max, process, s);
    }
  }

  lemma {:induction false} FreshDirty(codec: EnvelopeCodec, max: nat, chunks: seq<seq<byte>>)
    requires Proper(chunks) && !AllOk(Parse(codec, max, 0, Flatten(chunks)).results)
    ensures Dirty(codec, max, Link([], 0, [], chunks))
    ensures AheadOf(codec, max, Link([], 0, [], chunks)) == Parse(codec, max, 0, Flatten(chunks))
  {
    assert Settled(codec, max, 0, []);
    hide Parse;
    assert [] + Flatten(chunks) == Flatten(chunks);
  }

  /**
   * However a stream with a frame error is cut, the session is that of some first part of the envelopes in front of the
   * error, broken off there.
   */
  lemma {:induction false} ErrorBreaksOff(codec: EnvelopeCodec, max: nat, authority: Authority,
                                          chunks: seq<seq<byte>>) returns (k: nat)
    requires Proper(chunks) && !AllOk(Parse(codec, max, 0, Flatten(chunks)).results)
    ensures var front := Leading(Parse(codec, max, 0, Flatten(chunks)).results);
            k <= |front| && SessionOf(codec, max, authority, chunks) == Ideal(authority, front[..k], true)
  {
    hide Parse, Fill, RunOf, Settled, Dirty, AheadOf, Proper, AllOk, Driven, Leading;
    var s := Link([], 0, [], chunks);
    FreshDirty(codec, max, chunks);
    FillMeetsError(codec, max, s);
    FillReads(codec, max, 0, [], chunks);
    var f := Fill(codec, max, 0, [], chunks);
    var front := Leading(AheadOf(codec, max, s).results);
    k := 0;
    if f.how.Got? {
      k := |f.link.pending|;
      var accepted := authority(f.link.pending[0]);
      if accepted.Ok? {
        var t := f.link.(pending := f.link.pending[1..]);
        DirtyIgnoresPending(codec, max, f.link, t);
        var m := RunMeetsError(codec, max, accepted.value, t);
        k := k + m;
        assert front[..k] == f.link.pending + Leading(AheadOf(codec, max, t).results)[..m];
        assert front[..k][1..] == t.pending + Leading(AheadOf(codec, max, t).results)[..m];
      }
      assert front[..k][0] == f.link.pending[0];
    }
  }

  // ---- every one of them happens ----

  /** Envelopes in front of an error begin with a whole frame that decodes. */
  lemma {:induction false} FrontFrame(codec: EnvelopeCodec, max: nat, s: seq<byte>)
    requires Leading(Parse(codec, max, 0, s).results) != []
    ensures HeadOf(max, s).Whole?
    ensures var len := HeadOf(max, s).len;
            var first := DecodePayload(codec, s[4..4 + len]);
            && first.Ok?
            && Parse(codec, max, 0, s) == Prepend([first], Parse(codec, max, 0, s[4 + len..]))
            && Leading(Parse(codec, max, 0, s).results)
               == [first.value] + Leading(Parse(codec, max, 0, s[4 + len..]).results)
  {
    hide DecodePayload, HeadOf;
    if HeadOf(max, s).Whole? {
      var len := HeadOf(max, s).len;
      var first, more := DecodePayload(codec, s[4..4 + len]), Parse(codec, max, 0, s[4 + len..]).results;
      assert ([first] + more)[0] == first && ([first] + more)[1..] == more;
    }
  }

  /** The front of a byte string that begins with a whole frame. */
  lemma {:induction false} FrameThenFront(codec: EnvelopeCodec, max: nat, s: seq<byte>, q: nat)
    requires HeadOf(max, s).Whole? && q <= |s| - 4 - HeadOf(max, s).len
    ensures var len := HeadOf(max, s).len;
            Parse(codec, max, 0, s[..4 + len + q])
            == Prepend([DecodePayload(codec, s[4..4 + len])], Parse(codec, max, 0, s[4 + len..][..q]))
  {
    var len := HeadOf(max, s).len;
    var front := s[..4 + len + q];
    assert front[..4] == s[..4];
    assert front[4..4 + len] == s[4..4 + len];
    assert front[4 + len..] == s[4 + len..][..q];
    assert HeadOf(max, front) == HeadOf(max, s);
    hide HeadOf, DecodePayload;
  }

  /** Where the first `k` envelopes of a byte string end. */
  lemma {:induction false} FrontEnds(codec: EnvelopeCodec, max: nat, s: seq<byte>, k: nat) returns (p: nat)
    requires k <= |Leading(Parse(codec, max, 0, s).results)|
    ensures p <= |s|
    ensures var one := Parse(codec, max, 0, s[..p]);
            && one.rest == [] && one.skip == 0 && AllOk(one.results)
            && Values(one.results) == Leading(Parse(codec, max, 0, s).results)[..k]
    decreases |s|
  {
    hide Parse, DecodePayload, HeadOf, Leading, AllOk;
    if k == 0 {
      p := 0;
      NothingParsed(codec, max);
      assert s[..0] == [];
    } else {
      FrontFrame(codec, max, s);
      var len := HeadOf(max, s).len;
      var first := DecodePayload(codec, s[4..4 + len]);
      var q := FrontEnds(codec, max, s[4 + len..], k - 1);
      p := 4 + len + q;
      FrameThenFront(codec, max, s, q);
      OkCons(first, Parse(codec, max, 0, s[4 + len..][..q]).results);
    }
  }

  lemma {:induction false} NothingParsed(codec: EnvelopeCodec, max: nat)
    ensures Parse(codec, max, 0, []) == Parsed([], [], 0) && AllOk([]) && Values([]) == []
  {
  }

  lemma {:induction false} OkCons(r: Decoded, rs: seq<Decoded>)
    requires r.Ok? && AllOk(rs)
    ensures AllOk([r] + rs) && Values([r] + rs) == [r.value] + Values(rs)
  {
  }

  /** A session that holds envelopes, with the error in its one remaining read, is driven by those envelopes. */
  lemma {:induction false} LastReadBreaks(codec: EnvelopeCodec, max: nat, process: OtkEnvelope -> Action, s: Link)
    requires Fill(codec, max, s.skip, s.buf, s.ahead).how.BadFrame?
    ensures RunOf(codec, max, process, s) == Driven(process, s.pending, true)
    decreases |s.pending|
  {
    hide Fill;
    if s.pending != [] {
      LastReadBreaks(codec, max, process, s.(pending := s.pending[1..]));
      RunDispatches(codec, max, process, s);
    }
  }

  /** Any first part of the envelopes in front of the error is all that some way of cutting lets through. */
  lemma {:induction false} EveryBreakHappens(codec: EnvelopeCodec, max: nat, authority: Authority, s: seq<byte>, k: nat)
    returns (chunks: seq<seq<byte>>)
    requires !AllOk(Parse(codec, max, 0, s).results) && k <= |Leading(Parse(codec, max, 0, s).results)|
    ensures Cuts(chunks, s)
    ensures SessionOf(codec, max, authority, chunks)
         == Ideal(authority, Leading(Parse(codec, max, 0, s).results)[..k], true)
  {
    hide Parse, Fill, RunOf, AllOk, Driven, Leading;
    NothingParsed(codec, max);
    assert [] + s == s;
    if k == 0 {
      chunks := [s];
      assert Flatten([s]) == s && s != [] && Leading(Parse(codec, max, 0, s).results)[..0] == [];
      OneFill(codec, max, chunks);
    } else {
      var p := FrontEnds(codec, max, s, k);
      chunks := [s[..p], s[p..]];
      InTwoReads(codec, max, authority, s, p);
    }
  }

  /** With one read up to a frame boundary and another of the rest, the session is that of the first read. */
  lemma {:induction false} InTwoReads(codec: EnvelopeCodec, max: nat, authority: Authority, s: seq<byte>, p: nat)
    requires p <= |s| && !AllOk(Parse(codec, max, 0, s).results)
    requires var one := Parse(codec, max, 0, s[..p]);
             one.rest == [] && one.skip == 0 && AllOk(one.results) && one.results != []
    ensures Cuts([s[..p], s[p..]], s)
    ensures SessionOf(codec, max, authority, [s[..p], s[p..]])
         == Ideal(authority, Values(Parse(codec, max, 0, s[..p]).results), true)
  {
    hide Parse, Fill, RunOf, AllOk, Driven, Leading;
    NothingParsed(codec, max);
    var one, two := Parse(codec, max, 0, s[..p]), Parse(codec, max, 0, s[p..]);
    var chunks, last := [s[..p], s[p..]], [s[p..]];
    assert chunks[1..] == last && last[1..] == [];
    assert s[..p] + s[p..] == s && [] + s[p..] == s[p..] && [] + s[..p] == s[..p];
    ParseSplit(codec, max, 0, s[..p], s[p..]);
    LeadingConcat(one.results, two.results);
    assert s[..p] != [] && s[p..] != [];
    assert Flatten(chunks) == s by {
      assert Flatten(last) == s[p..];
    }
    var es := Values(one.results);
    OneFill(codec, max, chunks);
    OneFill(codec, max, last);
    if authority(es[0]).Ok? {
      LastReadBreaks(codec, max, authority(es[0]).value, Link(es[1..], 0, [], last));
    }
  }

  /** What the first read of a stream, or of the rest of one behind a frame boundary, gives. */
  lemma {:induction false} OneFill(codec: EnvelopeCodec, max: nat, chunks: seq<seq<byte>>)
    requires chunks != [] && chunks[0] != []
    ensures var p := Parse(codec, max, 0, chunks[0]);
            var f := Fill(codec, max, 0, [], chunks);
            && (!AllOk(p.results) ==> f.how.BadFrame?)
            && (AllOk(p.results) && p.results != [] ==>
                  f == Filled(Got, Link(Values(p.results), p.skip, p.rest, chunks[1..])))
  {
    hide Parse, AllOk, Leading;
    assert [] + chunks[0] == chunks[0];
  }

  // ---- when the chunking shows ----

  /** However the bytes are cut, the session is the same. */
  ghost predicate ChunkingHides(codec: EnvelopeCodec, max: nat, authority: Authority, s: seq<byte>) {
    forall a, b :: Cuts(a, s) && Cuts(b, s) ==>
        SessionOf(codec, max, authority, a) == SessionOf(codec, max, authority, b)
  }

  /** An event or a Disconnect stands, if anywhere, only behind a violation of the protocol. */
  predicate Unheard(process: OtkEnvelope -> Action, es: seq<OtkEnvelope>) {
    forall i :: 0 <= i < |es| && (process(es[i]).Surface? || process(es[i]).Disconnect?) ==>
        exists j :: 0 <= j < i && process(es[j]).Violation?
  }

  /** The envelopes are refused as malformed, or accepted and nothing is heard of those behind the first. */
  predicate SaysNothing(authority: Authority, es: seq<OtkEnvelope>) {
    es != [] ==>
      match authority(es[0])
      case Err(e) => e == Decode
      case Ok(process) => Unheard(process, es[1..])
  }

  lemma {:induction false} UnheardBehind(process: OtkEnvelope -> Action, es: seq<OtkEnvelope>)
    requires es != []
    ensures Unheard(process, es) <==>
            match process(es[0])
            case Surface(_) => false
            case Heartbeat => Unheard(process, es[1..])
            case Disconnect => false
            case Violation => true
  {
    var tail := es[1..];
    if process(es[0]).Heartbeat? {
      if Unheard(process, es) {
        forall i | 0 <= i < |tail| && (process(tail[i]).Surface? || process(tail[i]).Disconnect?)
          ensures exists j :: 0 <= j < i && process(tail[j]).Violation?
        {
          assert process(es[i + 1]) == process(tail[i]);
          var j :| 0 <= j < i + 1 && process(es[j]).Violation?;
          assert process(tail[j - 1]).Violation?;
        }
      }
      if Unheard(process, tail) {
        forall i | 0 <= i < |es| && (process(es[i]).Surface? || process(es[i]).Disconnect?)
          ensures exists j :: 0 <= j < i && process(es[j]).Violation?
        {
          assert process(tail[i - 1]) == process(es[i]);
          var j :| 0 <= j < i - 1 && process(tail[j]).Violation?;
          assert process(es[j + 1]).Violation?;
        }
      }
    }
  }

  lemma {:induction false} UnheardIsSilent(process: OtkEnvelope -> Action, es: seq<OtkEnvelope>)
    ensures Driven(process, es, true) == Outcome([], Broken(Decode)) <==> Unheard(process, es)
  {
    if es != [] {
      UnheardBehind(process, es);
      UnheardIsSilent(process, es[1..]);
    }
  }

  lemma {:induction false} NothingIsSilent(authority: Authority, es: seq<OtkEnvelope>)
    ensures Ideal(authority, es, true) == Outcome([], Broken(Decode)) <==> SaysNothing(authority, es)
  {
    hide Driven, Unheard;
    if es != [] && authority(es[0]).Ok? {
      UnheardIsSilent(authority(es[0]).value, es[1..]);
    }
  }

  lemma {:induction false} NothingOfPart(authority: Authority, es: seq<OtkEnvelope>, k: nat)
    requires k <= |es| && SaysNothing(authority, es)
    ensures SaysNothing(authority, es[..k])
  {
    if k > 0 && authority(es[0]).Ok? {
      var process := authority(es[0]).value;
      var all, part := es[1..], es[..k][1..];
      forall i | 0 <= i < |part| && (process(part[i]).Surface? || process(part[i]).Disconnect?)
        ensures exists j :: 0 <= j < i && process(part[j]).Violation?
      {
        assert part[i] == all[i];
        var j :| 0 <= j < i && process(all[j]).Violation?;
        assert process(part[j]).Violation?;
      }
    }
  }

  /**
   * The cutting of a stream into reads cannot be told from the session exactly if the stream has no frame error, or
   * says nothing in front of the first: no event and no Disconnect is reached before a violation or the error.
   */
  lemma {:induction false} ChunkingShowsExactlyWhen(codec: EnvelopeCodec, max: nat, authority: Authority,
                                                    s: seq<byte>)
    ensures var rs := Parse(codec, max, 0, s).results;
            ChunkingHides(codec, max, authority, s) <==> AllOk(rs) || SaysNothing(authority, Leading(rs))
  {
    hide Parse, SessionOf, Ideal, AllOk, Leading, SaysNothing, Proper;
    var whole := Parse(codec, max, 0, s);
    var front := Leading(whole.results);
    if AllOk(whole.results) {
      forall a | Cuts(a, s)
        ensures SessionOf(codec, max, authority, a)
             == Ideal(authority, Values(whole.results), whole.rest != [] || whole.skip > 0)
      {
        SessionIgnoresChunking(codec, max, authority, a);
      }
    } else if SaysNothing(authority, front) {
      forall a | Cuts(a, s)
        ensures SessionOf(codec, max, authority, a) == Outcome([], Broken(Decode))
      {
        var k := ErrorBreaksOff(codec, max, authority, a);
        NothingOfPart(authority, front, k);
        NothingIsSilent(authority, front[..k]);
      }
    } else {
      var none := EveryBreakHappens(codec, max, authority, s, 0);
      var all := EveryBreakHappens(codec, max, authority, s, |front|);
      assert front[..|front|] == front && front[..0] == [];
      NothingIsSilent(authority, front);
      SilentAtOnce(authority);
    }
  }

  lemma {:induction false} SilentAtOnce(authority: Authority)
    ensures Ideal(authority, [], true) == Outcome([], Broken(Decode))
  {
  }
}
