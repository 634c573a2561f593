/** A TCP ingest session: handshake, framing and dispatch over a byte stream that arrives in arbitrary chunks. */
module TcpSessions {
  import opened Bytes
  import opened Wrappers
  import opened EventModel
  import opened OtkProtocol
  import opened FrameTypes
  import opened StreamCodec

  datatype IngestError = Decode | Handshake

  /** What the protocol machine makes of an envelope. A protocol error ends the session with a Decode error. */
  datatype Action = Surface(event: OtkEvent) | Heartbeat | Disconnect | Violation

  /** The machine that a Connect envelope is answered with, or the handshake's error. */
  type Authority = OtkEnvelope -> Result<OtkEnvelope -> Action, IngestError>

  /** What one call for the next event returns. */
  type Next = Result<Option<OtkEvent>, IngestError>

  /** A session between calls: envelopes not yet dispatched, the decoder's state, and the reads still to come. */
  datatype Link = Link(pending: seq<OtkEnvelope>, skip: nat, buf: seq<byte>, ahead: seq<seq<byte>>)

  predicate AllOk(rs: seq<Decoded>) {
    forall i :: 0 <= i < |rs| ==> rs[i].Ok?
  }

  function Values(rs: seq<Decoded>): (es: seq<OtkEnvelope>)
    requires AllOk(rs)
    ensures |es| == |rs| && forall i :: 0 <= i < |es| ==> rs[i] == Ok(es[i])
  {
    seq(|rs|, i requires 0 <= i < |rs| => rs[i].value)
  }

  lemma {:induction false} AllOkConcat(a: seq<Decoded>, b: seq<Decoded>)
    requires AllOk(a + b)
    ensures AllOk(a) && AllOk(b) && Values(a + b) == Values(a) + Values(b)
  {
    forall i | 0 <= i < |a|
      ensures a[i].Ok?
    {
      assert (a + b)[i] == a[i];
    }
    forall i | 0 <= i < |b|
      ensures b[i].Ok?
    {
      assert (a + b)[|a| + i] == b[i];
    }
  }

  // ---- reading ----

  datatype Reading = BadFrame | Eof(midFrame: bool) | Got

  /** How reading ahead went, and where it left the session. */
  datatype Filled = Filled(how: Reading, link: Link)

  /** The envelopes in front of the first frame error. */
  function Leading(rs: seq<Decoded>): seq<OtkEnvelope> {
    if rs == [] || rs[0].Err? then [] else [rs[0].value] + Leading(rs[1..])
  }

  /**
   * Read until at least one envelope is there, an error is, or the peer has closed. A read of nothing is the end of the
   * stream. Envelopes in front of a frame error stay queued; those behind it in the same read are gone.
   */
  function Fill(codec: EnvelopeCodec, max: nat, skip: nat, buf: seq<byte>, ahead: seq<seq<byte>>): Filled
    decreases |ahead|
  {
    if ahead == [] || ahead[0] == [] then Filled(Eof(buf != [] || skip > 0), Link([], skip, buf, ahead))
    else
      var p := Parse(codec, max, skip, buf + ahead[0]);
      if !AllOk(p.results) then Filled(BadFrame, Link(Leading(p.results), p.skip, p.rest, ahead[1..]))
      else if p.results != [] then Filled(Got, Link(Values(p.results), p.skip, p.rest, ahead[1..]))
      else Fill(codec, max, p.skip, p.rest, ahead[1..])
  }

  /** Envelopes up to an error, and then the error. */
  lemma {:induction false} LeadingUpTo(rs: seq<Decoded>, i: nat)
    requires i < |rs| && (forall j :: 0 <= j < i ==> rs[j].Ok?) && rs[i].Err?
    ensures |Leading(rs)| == i && forall j :: 0 <= j < i ==> Leading(rs)[j] == rs[j].value
    decreases i
  {
    if i > 0 {
      LeadingUpTo(rs[1..], i - 1);
      forall j | 0 <= j < i
        ensures Leading(rs)[j] == rs[j].value
      {
        if j > 0 {
          assert rs[1..][j - 1] == rs[j];
        }
      }
    }
  }

  lemma {:induction false} UpToError(rs: seq<Decoded>, i: nat, es: seq<OtkEnvelope>)
    requires i < |rs| && AllOk(rs[..i]) && es == Values(rs[..i]) && rs[i].Err?
    ensures es == Leading(rs) && !AllOk(rs)
  {
    forall j | 0 <= j < i
      ensures rs[j].Ok? && es[j] == rs[j].value
    {
      assert rs[..i][j] == rs[j];
    }
    LeadingUpTo(rs, i);
  }

  method ReadEnvelopes(decoder: StreamFrameDecoder, ahead: seq<seq<byte>>) returns (filled: Filled)
    requires decoder.Valid()
    modifies decoder
    ensures decoder.Valid()
    ensures filled == Fill(decoder.codec, decoder.maxFrameSize, old(decoder.skipBytes), old(decoder.buf), ahead)
    ensures filled.link.skip == decoder.skipBytes && filled.link.buf == decoder.buf
    ensures filled.how.Got? ==> filled.link.pending != []
  {
    hide Parse;
    ghost var goal := Fill(decoder.codec, decoder.maxFrameSize, decoder.skipBytes, decoder.buf, ahead);
    var rest := ahead;
    while rest != [] && rest[0] != []
      invariant decoder.Valid()
      invariant goal == Fill(decoder.codec, decoder.maxFrameSize, decoder.skipBytes, decoder.buf, rest)
      decreases |rest|
    {
      var results := decoder.Push(rest[0]);
      var pending: seq<OtkEnvelope> := [];
      for i := 0 to |results|
        invariant AllOk(results[..i]) && pending == Values(results[..i])
      {
        assert results[..i + 1] == results[..i] + [results[i]];
        if results[i].Err? {
          UpToError(results, i, pending);
          return Filled(BadFrame, Link(pending, decoder.skipBytes, decoder.buf, rest[1..]));
        }
        pending := pending + [results[i].value];
      }
      assert results[..|results|] == results;
      rest := rest[1..];
      if pending != [] {
        return Filled(Got, Link(pending, decoder.skipBytes, decoder.buf, rest));
      }
    }
    return Filled(Eof(decoder.HasPending()), Link([], decoder.skipBytes, decoder.buf, rest));
  }

  // ---- dispatching ----

  /** The next event of a session, and where it leaves it. */
  function NextOf(codec: EnvelopeCodec, max: nat, process: OtkEnvelope -> Action, s: Link): (Next, Link)
    decreases |s.ahead|, |s.pending|
  {
    if s.pending == [] then
      var f := Fill(codec, max, s.skip, s.buf, s.ahead);
      match f.how
      case BadFrame => (Err(Decode), f.link)
      case Eof(midFrame) => (if midFrame then Err(Decode) else Ok(None), f.link)
      case Got => FillReads(codec, max, s.skip, s.buf, s.ahead); Dispatch(codec, max, process, f.link)
    else Dispatch(codec, max, process, s)
  }

  /** Acting on the first pending envelope. */
  function Dispatch(codec: EnvelopeCodec, max: nat, process: OtkEnvelope -> Action, s: Link): (Next, Link)
    requires s.pending != []
    decreases |s.ahead|, |s.pending|, 0
  {
    var rest := s.(pending := s.pending[1..]);
    match process(s.pending[0])
    case Surface(event) => (Ok(Some(event)), rest)
    case Heartbeat => NextOf(codec, max, process, rest)
    case Disconnect => (Ok(None), rest)
    case Violation => (Err(Decode), rest)
  }

  lemma {:induction false} FillReads(codec: EnvelopeCodec, max: nat, skip: nat, buf: seq<byte>, ahead: seq<seq<byte>>)
    ensures var f := Fill(codec, max, skip, buf, ahead); f.how.Got? ==> |f.link.ahead| < |ahead| && f.link.pending != []
    decreases |ahead|
  {
    hide Parse;
    if ahead != [] && ahead[0] != [] {
      var p := Parse(codec, max, skip, buf + ahead[0]);
      FillReads(codec, max, p.skip, p.rest, ahead[1..]);
    }
  }

  class TcpIngestSession {
    const decoder: StreamFrameDecoder
    const process: OtkEnvelope -> Action
    var pending: seq<OtkEnvelope>
    var ahead: seq<seq<byte>>

    ghost predicate Valid()
      reads this, decoder
    {
      decoder.Valid()
    }

    ghost function Now(): Link
      reads this, decoder
    {
      Link(pending, decoder.skipBytes, decoder.buf, ahead)
    }

    constructor (decoder: StreamFrameDecoder, process: OtkEnvelope -> Action, pending: seq<OtkEnvelope>,
                 ahead: seq<seq<byte>>)
      requires decoder.Valid()
      ensures Valid() && this.decoder == decoder && this.process == process
      ensures this.pending == pending && this.ahead == ahead
    {
      this.decoder, this.process, this.pending, this.ahead := decoder, process, pending, ahead;
    }

    /** The first complete envelope must be one the handshake accepts; envelopes behind it wait for dispatch. */
    static method Handshake(codec: EnvelopeCodec, max: nat, authority: Authority, chunks: seq<seq<byte>>)
      returns (r: Result<TcpIngestSession, IngestError>)
      ensures r.Ok? ==> fresh(r.value) && fresh(r.value.decoder) && r.value.Valid()
      ensures r.Ok? ==> r.value.decoder.codec == codec && r.value.decoder.maxFrameSize == max
      ensures match Greet(codec, max, authority, chunks)
              case Err(e) => r == Err(e)
              case Ok(open) => r.Ok? && r.value.process == open.0 && r.value.Now() == open.1
    {
      hide Fill;
      var decoder := new StreamFrameDecoder(codec, max);
      var filled := ReadEnvelopes(decoder, chunks);
      match filled.how {
        case BadFrame => return Err(Decode);
        case Eof(midFrame) => return Err(if midFrame then Decode else IngestError.Handshake);
        case Got =>
          var accepted := authority(filled.link.pending[0]);
          if accepted.Err? {
            return Err(accepted.error);
          }
          var session := new TcpIngestSession(decoder, accepted.value, filled.link.pending[1..], filled.link.ahead);
          return Ok(session);
      }
    }

    method NextEvent() returns (r: Next)
      requires Valid()
      modifies this, decoder
      ensures Valid()
      ensures (r, Now()) == NextOf(decoder.codec, decoder.maxFrameSize, process, old(Now()))
    {
      hide Fill;
      ghost var goal := NextOf(decoder.codec, decoder.maxFrameSize, process, Now());
      while true
        invariant Valid()
        invariant NextOf(decoder.codec, decoder.maxFrameSize, process, Now()) == goal
        decreases |ahead|, |pending|
      {
        if pending == [] {
          FillReads(decoder.codec, decoder.maxFrameSize, decoder.skipBytes, decoder.buf, ahead);
          var filled := ReadEnvelopes(decoder, ahead);
          pending, ahead := filled.link.pending, filled.link.ahead;
          match filled.how {
            case BadFrame => return Err(Decode);
            case Eof(midFrame) => return if midFrame then Err(Decode) else Ok(None);
            case Got =>
          }
        }
        var envelope := pending[0];
        pending := pending[1..];
        match process(envelope) {
          case Surface(event) => return Ok(Some(event));
          case Heartbeat =>
          case Disconnect => return Ok(None);
          case Violation => return Err(Decode);
        }
      }
    }
  }

  /** The handshake: the machine that takes over, and the session's state behind the Connect envelope. */
  function Greet(codec: EnvelopeCodec, max: nat, authority: Authority,
                 chunks: seq<seq<byte>>): Result<(OtkEnvelope -> Action, Link), IngestError> {
    var f := Fill(codec, max, 0, [], chunks);
    match f.how
    case BadFrame => Err(Decode)
    case Eof(midFrame) => Err(if midFrame then Decode else IngestError.Handshake)
    case Got =>
      FillReads(codec, max, 0, [], chunks);
      match authority(f.link.pending[0])
      case Err(e) => Err(e)
      case Ok(process) => Ok((process, f.link.(pending := f.link.pending[1..])))
  }

  // ---- whole sessions ----

  /** All events a session yields, and how it ends: cleanly, or with an error. */
  datatype Ending = Closed | Broken(error: IngestError)

  datatype Outcome = Outcome(events: seq<OtkEvent>, ending: Ending)

  lemma {:induction false} NextShrinks(codec: EnvelopeCodec, max: nat, process: OtkEnvelope -> Action, s: Link)
    ensures var (r, t) := NextOf(codec, max, process, s);
            r.Ok? && r.value.Some? ==> |t.ahead| < |s.ahead| || (|t.ahead| == |s.ahead| && |t.pending| < |s.pending|)
    decreases |s.ahead|, |s.pending|
  {
    hide Fill;
    var at := s;
    if s.pending == [] {
      FillReads(codec, max, s.skip, s.buf, s.ahead);
      if Fill(codec, max, s.skip, s.buf, s.ahead).how.Got? {
        at := Fill(codec, max, s.skip, s.buf, s.ahead).link;
      }
    }
    if at.pending != [] && process(at.pending[0]) == Action.Heartbeat {
      NextShrinks(codec, max, process, at.(pending := at.pending[1..]));
    }
  }

  /** Asking for the next event until there is none. */
  function RunOf(codec: EnvelopeCodec, max: nat, process: OtkEnvelope -> Action, s: Link): Outcome
    decreases |s.ahead|, |s.pending|
  {
    var (r, t) := NextOf(codec, max, process, s);
    NextShrinks(codec, max, process, s);
    match r
    case Err(e) => Outcome([], Broken(e))
    case Ok(None) => Outcome([], Closed)
    case Ok(Some(event)) => var rest := RunOf(codec, max, process, t); Outcome([event] + rest.events, rest.ending)
  }

  function SessionOf(codec: EnvelopeCodec, max: nat, authority: Authority, chunks: seq<seq<byte>>): Outcome {
    match Greet(codec, max, authority, chunks)
    case Err(e) => Outcome([], Broken(e))
    case Ok(open) => RunOf(codec, max, open.0, open.1)
  }

  // ---- what a session should do, from the envelopes alone ----

  /** Events in order up to the Disconnect; without one, the end of the stream decides. */
  function Driven(process: OtkEnvelope -> Action, es: seq<OtkEnvelope>, midFrame: bool): Outcome {
    if es == [] then Outcome([], if midFrame then Broken(Decode) else Closed)
    else
      match process(es[0])
      case Surface(event) => var rest := Driven(process, es[1..], midFrame); Outcome([event] + rest.events, rest.ending)
      case Heartbeat => Driven(process, es[1..], midFrame)
      case Disconnect => Outcome([], Closed)
      case Violation => Outcome([], Broken(Decode))
  }

  function Ideal(authority: Authority, es: seq<OtkEnvelope>, midFrame: bool): Outcome {
    if es == [] then Outcome([], Broken(if midFrame then Decode else IngestError.Handshake))
    else
      match authority(es[0])
      case Err(e) => Outcome([], Broken(e))
      case Ok(process) => Driven(process, es[1..], midFrame)
  }

  /** No read returns nothing before the peer closes. */
  predicate Proper(chunks: seq<seq<byte>>) {
    forall c :: c in chunks ==> c != []
  }

  /** Everything still to come of a session, parsed at once. */
  function AheadOf(codec: EnvelopeCodec, max: nat, s: Link): Parsed {
    Parse(codec, max, s.skip, s.buf + Flatten(s.ahead))
  }

  ghost predicate Clean(codec: EnvelopeCodec, max: nat, s: Link) {
    Proper(s.ahead) && Settled(codec, max, s.skip, s.buf) && AllOk(AheadOf(codec, max, s).results)
  }

  lemma {:induction false} FillStep(codec: EnvelopeCodec, max: nat, skip: nat, buf: seq<byte>, chunk: seq<byte>,
                                    rest: seq<seq<byte>>)
    ensures var p := Parse(codec, max, skip, buf + chunk);
            && Settled(codec, max, p.skip, p.rest)
            && Parse(codec, max, skip, buf + Flatten([chunk] + rest)) == Prepend(p.results,
                                                                                 Parse(codec, max, p.skip,
                                                                                       p.rest + Flatten(rest)))
  {
    hide Parse, Settled;
    ParseSettles(codec, max, skip, buf + chunk);
    ParseSplit(codec, max, skip, buf + chunk, Flatten(rest));
    assert ([chunk] + rest)[1..] == rest;
    assert buf + chunk + Flatten(rest) == buf + Flatten([chunk] + rest);
  }

  /** Reading ahead in a clean stream: what it takes out is the front of what a parse of the whole would give. */
  lemma {:induction false} FillTakesFront(codec: EnvelopeCodec, max: nat, s: Link)
    requires Clean(codec, max, s)
    ensures var f := Fill(codec, max, s.skip, s.buf, s.ahead);
            var whole := AheadOf(codec, max, s);
            && !f.how.BadFrame?
            && (f.how.Eof? ==> whole.results == [] && (f.how.midFrame <==> (whole.rest != [] || whole.skip > 0)))
            && (f.how.Got? ==>
                  && Clean(codec, max, f.link) && AllOk(AheadOf(codec, max, f.link).results)
                  && Values(whole.results) == f.link.pending + Values(AheadOf(codec, max, f.link).results)
                  && whole.rest == AheadOf(codec, max, f.link).rest && whole.skip == AheadOf(codec, max, f.link).skip)
    decreases |s.ahead|
  {
    hide Parse, Settled;
    var whole := AheadOf(codec, max, s);
    if s.ahead == [] {
      assert s.buf + Flatten(s.ahead) == s.buf;
      SettledParse(codec, max, s.skip, s.buf);
    } else {
      var chunk, rest := s.ahead[0], s.ahead[1..];
      assert [chunk] + rest == s.ahead && chunk in s.ahead;
      var p := Parse(codec, max, s.skip, s.buf + chunk);
      var t := Link([], p.skip, p.rest, rest);
      FillStep(codec, max, s.skip, s.buf, chunk, rest);
      AllOkConcat(p.results, AheadOf(codec, max, t).results);
      ProperRest(s.ahead);
      assert Clean(codec, max, t);
      hide AheadOf, Clean, AllOk, Proper;
      if p.results == [] {
        FillTakesFront(codec, max, t);
        assert whole.results ==
            AheadOf(codec, max,
                    t).results by { assert [] + AheadOf(codec, max, t).results == AheadOf(codec, max, t).results; }
      } else {
        CleanIgnoresPending(codec, max, t, t.(pending := Values(p.results)));
      }
    }
  }

  lemma {:induction false} SettledParse(codec: EnvelopeCodec, max: nat, skip: nat, buf: seq<byte>)
    requires Settled(codec, max, skip, buf)
    ensures Parse(codec, max, skip, buf) == Parsed([], buf, skip)
  {
  }

  lemma {:induction false} ProperRest(chunks: seq<seq<byte>>)
    requires Proper(chunks) && chunks != []
    ensures Proper(chunks[1..])
  {
    forall c | c in chunks[1..]
      ensures c != []
    {
      assert c in chunks;
    }
  }

  /**
   * A clean session from any state is driven by the envelopes it holds and those a parse of the rest of the stream
   * gives.
   */
  lemma {:induction false} RunIsDriven(codec: EnvelopeCodec, max: nat, process: OtkEnvelope -> Action, s: Link)
    requires Clean(codec, max, s)
    ensures var whole := AheadOf(codec, max, s);
            RunOf(codec, max, process, s) ==
            Driven(process, s.pending + Values(whole.results), whole.rest != [] || whole.skip > 0)
    decreases |s.ahead|, |s.pending|
  {
    hide Fill, AheadOf, Clean, Settled, Proper, AllOk;
    CleanOk(codec, max, s);
    var whole := AheadOf(codec, max, s);
    var es := s.pending + Values(whole.results);
    if s.pending == [] {
      FillTakesFront(codec, max, s);
      FillReads(codec, max, s.skip, s.buf, s.ahead);
      var f := Fill(codec, max, s.skip, s.buf, s.ahead);
      if f.how.Got? {
        RunSkipsFill(codec, max, process, s);
        RunIsDriven(codec, max, process, f.link);
        assert [] + Values(whole.results) == Values(whole.results);
      }
    } else {
      var t := s.(pending := s.pending[1..]);
      CleanIgnoresPending(codec, max, s, t);
      RunIsDriven(codec, max, process, t);
      assert es[0] == s.pending[0] && es[1..] == t.pending + Values(whole.results);
      RunDispatches(codec, max, process, s);
    }
  }

  lemma {:induction false} CleanOk(codec: EnvelopeCodec, max: nat, s: Link)
    requires Clean(codec, max, s)
    ensures AllOk(AheadOf(codec, max, s).results)
  {
    hide AheadOf;
  }

  lemma {:induction false} CleanIgnoresPending(codec: EnvelopeCodec, max: nat, s: Link, t: Link)
    requires Clean(codec, max, s) && t.(pending := s.pending) == s
    ensures Clean(codec, max, t) && AheadOf(codec, max, t) == AheadOf(codec, max, s)
  {
    hide Parse;
  }

  /** With nothing pending a run continues from where reading ahead leaves it. */
  lemma {:induction false} RunSkipsFill(codec: EnvelopeCodec, max: nat, process: OtkEnvelope -> Action, s: Link)
    requires s.pending == [] && Fill(codec, max, s.skip, s.buf, s.ahead).how.Got?
    ensures RunOf(codec, max, process, s) == RunOf(codec, max, process, Fill(codec, max, s.skip, s.buf, s.ahead).link)
  {
    hide Fill;
    FillReads(codec, max, s.skip, s.buf, s.ahead);
  }

  lemma {:induction false} RunDispatches(codec: EnvelopeCodec, max: nat, process: OtkEnvelope -> Action, s: Link)
    requires s.pending != []
    ensures var t := s.(pending := s.pending[1..]);
            RunOf(codec, max, process, s) ==
            match process(s.pending[0])
            case Surface(event) =>
              Outcome([event] + RunOf(codec, max, process, t).events, RunOf(codec, max, process, t).ending)
            case Heartbeat => RunOf(codec, max, process, t)
            case Disconnect => Outcome([], Closed)
            case Violation => Outcome([], Broken(Decode))
  {
    NextDispatches(codec, max, process, s);
    hide NextOf, Dispatch;
  }

  lemma {:induction false} NextDispatches(codec: EnvelopeCodec, max: nat, process: OtkEnvelope -> Action, s: Link)
    requires s.pending != []
    ensures var t := s.(pending := s.pending[1..]);
            NextOf(codec, max, process, s) ==
            match process(s.pending[0])
            case Surface(event) => (Ok(Some(event)), t)
            case Heartbeat => NextOf(codec, max, process, t)
            case Disconnect => (Ok(None), t)
            case Violation => (Err(Decode), t)
  {
    hide Fill;
  }

  lemma {:induction false} FreshLink(codec: EnvelopeCodec, max: nat, chunks: seq<seq<byte>>)
    requires Proper(chunks) && AllOk(Parse(codec, max, 0, Flatten(chunks)).results)
    ensures Clean(codec, max, Link([], 0, [], chunks))
    ensures AheadOf(codec, max, Link([], 0, [], chunks)) == Parse(codec, max, 0, Flatten(chunks))
  {
    assert Settled(codec, max, 0, []);
    hide Parse;
    assert [] + Flatten(chunks) == Flatten(chunks);
  }

  /**
   * For a byte stream without frame errors, every way of cutting it into reads gives the same session: the handshake on
   * the first envelope, then the events of the others in order, whether or not they came with the Connect.
   */
  lemma {:induction false} SessionIgnoresChunking(codec: EnvelopeCodec, max: nat, authority: Authority,
                                                  chunks: seq<seq<byte>>)
    requires Proper(chunks) && AllOk(Parse(codec, max, 0, Flatten(chunks)).results)
    ensures var whole := Parse(codec, max, 0, Flatten(chunks));
            SessionOf(codec, max, authority, chunks) == Ideal(authority, Values(whole.results),
                                                              whole.rest != [] || whole.skip > 0)
  {
    hide Parse, Fill, RunOf, Settled, Clean, AheadOf, Proper, AllOk, Driven;
    var s := Link([], 0, [], chunks);
    FreshLink(codec, max, chunks);
    FillTakesFront(codec, max, s);
    FillReads(codec, max, 0, [], chunks);
    var f := Fill(codec, max, 0, [], chunks);
    if f.how.Got? && authority(f.link.pending[0]).Ok? {
      var t := f.link.(pending := f.link.pending[1..]);
      CleanIgnoresPending(codec, max, f.link, t);
      RunIsDriven(codec, max, authority(f.link.pending[0]).value, t);
      var es := f.link.pending + Values(AheadOf(codec, max, f.link).results);
      assert es[1..] == t.pending + Values(AheadOf(codec, max, t).results);
    }
  }

  /**
   * The end of the stream is an error exactly if it does not fall on a frame boundary, unless a Disconnect came first.
   */
  lemma {:induction false} EndingIsByBoundary(codec: EnvelopeCodec, max: nat, process: OtkEnvelope -> Action,
                                              s: seq<byte>)
    requires AllOk(Parse(codec, max, 0, s).results)
    requires forall e :: e in Values(Parse(codec, max, 0, s).results) ==> process(e).Surface? || process(e).Heartbeat?
    ensures var whole := Parse(codec, max, 0, s);
            Driven(process, Values(whole.results), whole.rest != [] || whole.skip > 0).ending ==
            if WholeFrames(s) then Closed else Broken(Decode)
  {
    hide Parse, WholeFrames;
    PendingMeansMidFrame(codec, max, s);
    var whole := Parse(codec, max, 0, s);
    DrivenEnds(process, Values(whole.results), whole.rest != [] || whole.skip > 0);
  }

  lemma {:induction false} DrivenEnds(process: OtkEnvelope -> Action, es: seq<OtkEnvelope>, midFrame: bool)
    requires forall e :: e in es ==> process(e).Surface? || process(e).Heartbeat?
    ensures Driven(process, es, midFrame).ending == if midFrame then Broken(Decode) else Closed
  {
    if es != [] {
      assert es[0] in es;
      DrivenEnds(process, es[1..], midFrame);
    }
  }

  lemma {:induction false} FramesParse(codec: EnvelopeCodec, max: nat, e: OtkEnvelope)
    requires codec.Lawful() && max + 1 < U32_LIMIT && codec.encode(e).Some? && |codec.encode(e).value| <= max
    ensures var good, oversize := Frame(codec.encode(e).value), BigEndian(max + 1, 4);
            && Parse(codec, max, 0, good) == Parsed([Ok(e)], [], 0)
            && good != [] && oversize != []
            && var both, bad := Parse(codec, max, 0, good + oversize), Parse(codec, max, 0, oversize);
               && |both.results| > 1 && both.results[0] == Ok(e) && both.results[1].Err? && bad.results != []
               && bad.results[0].Err?
  {
    var good, oversize := Frame(codec.encode(e).value), BigEndian(max + 1, 4);
    StreamRoundTrip(codec, max, e, []);
    StreamRoundTrip(codec, max, e, oversize);
    OversizeParses(codec, max);
    assert good + [] == good;
    assert Parse(codec, max, 0, []) == Parsed([], [], 0);
    var first: seq<Decoded> := [Ok(e)];
    assert first + [] == first;
  }

  /**
   * A session goes on after a frame error: an event in the same read as a later oversize frame comes after the error,
   * while in a read of its own it comes before.
   */
  lemma {:induction false} FrameErrorsShowChunking(codec: EnvelopeCodec, max: nat, process: OtkEnvelope -> Action,
                                                   e: OtkEnvelope)
    requires codec.Lawful() && process(e).Surface? && max + 1 < U32_LIMIT
    requires codec.encode(e).Some? && |codec.encode(e).value| <= max
    ensures var good, oversize := Frame(codec.encode(e).value), BigEndian(max + 1, 4);
            var apart := NextOf(codec, max, process, Link([], 0, [], [good, oversize]));
            var together := NextOf(codec, max, process, Link([], 0, [], [good + oversize]));
            && apart.0 == Ok(Some(process(e).event)) && NextOf(codec, max, process, apart.1).0 == Err(Decode)
            && together.0 == Err(Decode) && NextOf(codec, max, process, together.1).0 == Ok(Some(process(e).event))
  {
    hide Parse, Frame;
    FramesParse(codec, max, e);
    var good, oversize := Frame(codec.encode(e).value), BigEndian(max + 1, 4);
    var one, both, bad := Parse(codec, max, 0, good), Parse(codec, max, 0, good + oversize), Parse(codec, max, 0,
                                                                                                   oversize);
    assert [] + good == good && [] + (good + oversize) == good + oversize && [] + oversize == oversize;
    assert [good, oversize][1..] == [oversize];
    assert AllOk(one.results) && !AllOk(both.results) && !AllOk(bad.results);
    assert Values(one.results) == [e] && Leading(both.results) == [e] by {
      assert both.results[1..][0] == both.results[1];
    }
    hide AllOk, Values, Leading;
    assert oversize != [];
    assert Fill(codec, max, 0, [], [good, oversize]) == Filled(Got, Link([e], 0, [], [oversize]));
    assert Fill(codec, max, 0, [], [oversize]).how == BadFrame;
    assert Fill(codec, max, 0, [], [good + oversize]) ==
        Filled(BadFrame, Link([e], both.skip, both.rest, [good + oversize][1..]));
    SurfacesNext(codec, max, process, Link([e], 0, [], [oversize]));
    SurfacesNext(codec, max, process, Link([e], both.skip, both.rest, [good + oversize][1..]));
    var es: seq<OtkEnvelope> := [e];
    assert es[1..] == [];
  }

  lemma {:induction false} SurfacesNext(codec: EnvelopeCodec, max: nat, process: OtkEnvelope -> Action, s: Link)
    requires s.pending != [] && process(s.pending[0]).Surface?
    ensures NextOf(codec, max, process, s) == (Ok(Some(process(s.pending[0]).event)), s.(pending := s.pending[1..]))
    ensures Dispatch(codec, max, process, s) == NextOf(codec, max, process, s)
  {
    hide Fill;
  }

  lemma {:induction false} OversizeParses(codec: EnvelopeCodec, max: nat)
    requires max + 1 < U32_LIMIT
    ensures |Parse(codec, max, 0, BigEndian(max + 1, 4)).results| >= 1
    ensures Parse(codec, max, 0, BigEndian(max + 1, 4)).results[0].Err?
  {
    var s := BigEndian(max + 1, 4);
    Pow256Values();
    BigEndianRoundTrip(max + 1, 4);
    assert s[..4] == s;
    hide BigEndian, FromBigEndian;
    assert HeadOf(max, s) == Oversize(max + 1);
  }
}
