/** The Go and the TypeScript caller compared on the same list of frames. */
module Agreement {
  import opened Protocol
  import TsStream
  import TsModel
  import opened TsTheorems
  import GoCaller
  import GoCallerInvariants
  import GoSystem
  import GoTheorems
  import HandlerModel
  import HandlerTheorems

  /** A view without error codes, which the TypeScript caller drops. */
  function Forget(v: View): View {
    match v
    case Refused(f) => Refused(TsModel.MessageOnly(f))
    case Streaming(h, b, Broke(f)) => Streaming(h, b, Broke(TsModel.MessageOnly(f)))
    case _ => v
  }

  /** Frames that would change nothing for the Go pump. */
  predicate Quiet(fs: seq<Frame>) {
    fs == [] || ((fs[0].Start? || fs[0].Response? || fs[0].Other? || fs[0] == Chunk(Some([]))) && Quiet(fs[1..]))
  }

  predicate StreamAgreed(fs: seq<Frame>) {
    fs == [] ||
    match fs[0]
    case Chunk(d) => d.Some? && StreamAgreed(fs[1..])
    case Other(_) => StreamAgreed(fs[1..])
    case End => true
    case Error(i) => i.Some?
    case _ => Quiet(fs[1..])  // Start or Response again
  }

  /** Exactly the lists of frames on which both callers show the same response. */
  predicate Agreed(fs: seq<Frame>) {
    fs == [] ||
    match fs[0]
    case Response(p) => p.Some?
    case Start(h) => h.Some? && StreamAgreed(fs[1..])
    case Error(i) => i.Some?
    case _ => false
  }

  lemma {:induction false} QuietIff(fs: seq<Frame>)
    ensures Quiet(fs) <==> StreamBody(fs) == ([], Open)
  {
    if fs != [] {
      QuietIff(fs[1..]);
      if fs[0].Chunk? && fs[0].data.Some? {
        var d, b := fs[0].data.value, StreamBody(fs[1..]).0;
        assert d + b == [] <==> d == [] && b == [] by {
          if d + b == [] { assert |d + b| == |d| + |b|; }
        }
      }
    }
  }

  lemma {:induction false} FoldStuck(m: Mode, fs: seq<Frame>)
    requires m.Over? || m.Detached?
    ensures ModeView(Fold(m, fs)) == ModeView(m)
    decreases fs
  {
    if fs != [] { FoldStuck(ModeStep(m, fs[0]), fs[1..]); }
  }

  ghost predicate TsFailure(f: Failure) { f.Remote? && f.info.code == 0 }

  /** The failures the TypeScript caller can take from frames carry a message and no code. */
  lemma {:induction false} TsFailuresOnly(m: Mode, fs: seq<Frame>)
    requires var v := ModeView(m);
             (v.Refused? ==> TsFailure(v.why)) && (v.Streaming? && v.ending.Broke? ==> TsFailure(v.ending.why))
    ensures var v := ModeView(Fold(m, fs));
            (v.Refused? ==> TsFailure(v.why)) && (v.Streaming? && v.ending.Broke? ==> TsFailure(v.ending.why))
    decreases fs
  {
    if fs != [] { TsFailuresOnly(ModeStep(m, fs[0]), fs[1..]); }
  }

  lemma {:induction false} HiddenNeverRefuses(m: Mode, fs: seq<Frame>)
    requires !m.Fresh? && !ModeView(m).Refused?
    ensures !ModeView(Fold(m, fs)).Refused?
    decreases fs
  {
    if fs != [] { HiddenNeverRefuses(ModeStep(m, fs[0]), fs[1..]); }
  }

  /** The Go reading of the frames after Start, started from what is there already. */
  function GoStream(h: Head, b: Bytes, fs: seq<Frame>): View {
    Forget(Streaming(h, b + StreamBody(fs).0, StreamBody(fs).1))
  }

  lemma {:induction false} StreamAgreedIff(h: Head, b: Bytes, fs: seq<Frame>)
    ensures ModeView(Fold(Live(h, b), fs)) == GoStream(h, b, fs) <==> StreamAgreed(fs)
    decreases fs
  {
    if fs == [] {
      assert b + [] == b;
    } else {
      var rest := fs[1..];
      var m := ModeStep(Live(h, b), fs[0]);
      TsFailuresOnly(Live(h, b), fs);
      match fs[0]
      case Chunk(Some(d)) =>
        StreamAgreedIff(h, b + d, rest);
        assert (b + d) + StreamBody(rest).0 == b + (d + StreamBody(rest).0);
      case Other(_) => StreamAgreedIff(h, b, rest);
      case Chunk(None) =>
      case End => FoldStuck(m, rest); assert b + [] == b;
      case Error(_) => FoldStuck(m, rest); assert b + [] == b;
      case _ =>
        FoldStuck(m, rest);
        QuietIff(rest);
        var x := StreamBody(rest).0;
        assert b + [] == b && |b + x| == |b| + |x|;
    }
  }

  /** The two callers show the same response on a list of frames if and only if it is Agreed. */
  lemma CallersAgreeIff(fs: seq<Frame>)
    ensures Forget(Interpret(fs)) == TsInterpret(fs) <==> Agreed(fs)
  {
    if fs != [] {
      var rest := fs[1..];
      var m := ModeStep(Fresh, fs[0]);
      TsFailuresOnly(Fresh, fs);
      match fs[0]
      case Start(Some(h)) =>
        StreamAgreedIff(h, [], rest);
        assert [] + StreamBody(rest).0 == StreamBody(rest).0;
      case Start(None) => HiddenNeverRefuses(m, rest);
      case Response(_) => FoldStuck(m, rest);
      case Error(_) => FoldStuck(m, rest);
      case _ =>
    }
  }

  // ----- two running callers -----

  lemma {:induction false} FoldAppend(m: Mode, fs: seq<Frame>, gs: seq<Frame>)
    ensures Fold(m, fs + gs) == Fold(Fold(m, fs), gs)
    decreases fs
  {
    if fs == [] {
      assert fs + gs == gs;
    } else {
      assert (fs + gs)[1..] == fs[1..] + gs;
      FoldAppend(ModeStep(m, fs[0]), fs[1..], gs);
    }
  }

  lemma {:induction false} FoldKeepsHead(m: Mode, fs: seq<Frame>)
    requires ModeView(m).Streaming?
    ensures ModeView(Fold(m, fs)).Streaming? && ModeView(Fold(m, fs)).head == ModeView(m).head
    decreases fs
  {
    if fs != [] { FoldKeepsHead(ModeStep(m, fs[0]), fs[1..]); }
  }

  /** A stream's body only ever grows. */
  lemma {:induction false} FoldGrows(m: Mode, fs: seq<Frame>)
    ensures BodyOf(ModeView(m)) <= BodyOf(ModeView(Fold(m, fs)))
    decreases fs
  {
    if fs != [] { FoldGrows(ModeStep(m, fs[0]), fs[1..]); }
  }

  lemma TsMonotone(fs: seq<Frame>, gs: seq<Frame>)
    requires fs <= gs
    ensures forall b, e :: EndsAs(TsInterpret(fs), b, e) && e != Open ==> EndsAs(TsInterpret(gs), b, e)
    ensures TsInterpret(fs).Streaming? ==> TsInterpret(gs).Streaming? && TsInterpret(gs).head == TsInterpret(fs).head
    ensures TsInterpret(fs).Whole? || TsInterpret(fs).Refused? ==> TsInterpret(gs) == TsInterpret(fs)
    ensures BodyOf(TsInterpret(fs)) <= BodyOf(TsInterpret(gs))
  {
    var rest := gs[|fs|..];
    assert gs == fs + rest;
    FoldAppend(Fresh, fs, rest);
    var m := Fold(Fresh, fs);
    FoldGrows(m, rest);
    if m.Over? { FoldStuck(m, rest); }
    if ModeView(m).Streaming? { FoldKeepsHead(m, rest); }
  }

  ghost predicate HasBody(v: View) { v.Whole? || v.Streaming? }

  /**
   A Go caller and a TypeScript caller that are each somewhere inside the same agreed list of
   frames show the same status and headers; bodies read to their end hold the same bytes, and
   one never ends cleanly where the other reports a remote failure, unless the Go caller was
   closed with io.EOF.
   */
  lemma CallersInterchangeable(frames: seq<Frame>, c: nat, y: GoSystem.Sys, id: Id,
                               timed: TsModel.Timed, t: TsModel.Ts, jd: Id)
    requires Agreed(frames)
    requires GoSystem.Reachable(c, y) && id in y.slots && y.slots[id].q.popped <= frames
    requires Reachable(timed, t) && TsModel.HasStream(t, jd) && t.reqs[jd].heard <= frames
    requires GoCaller.Holder(y.slots[id]) && !t.reqs[jd].stream.value.cancelled
    ensures var g, e := y.slots[id], t.reqs[jd];
            var s, closedByEof := e.stream.value, GoCallerInvariants.ClosedByEof(y.sh);
            && e.promise == TsModel.Resolved(g.req.o.head)
            && (g.pipe.sawEof && !closedByEof && s.st.Finished? ==> g.pipe.delivered == Concat(s.delivered))
            && (g.pipe.sawErr.Some? && FromFrames(g.pipe.sawErr.value) && s.st.Errored? && FromFrames(s.st.why) ==>
                  g.pipe.delivered == Concat(s.delivered)
                  && TsModel.MessageOnly(g.pipe.sawErr.value) == s.st.why)
            && !(g.pipe.sawEof && !closedByEof && s.st.Errored? && FromFrames(s.st.why))
            && !(g.pipe.sawErr.Some? && FromFrames(g.pipe.sawErr.value) && s.st.Finished?)
  {
    CallersAgreeIff(frames);
    GoTheorems.CallerRefinesInterpret(c, y, id);
    InterpretMonotone(y.slots[id].q.popped, frames);
    TsRefines(timed, t, jd);
    TsMonotone(t.reqs[jd].heard, frames);
    HolderHasBody(c, y, id);
  }

  /** However little each reader has taken, both hold prefixes of one byte string: the body of the agreed list. */
  lemma PartialBodiesAgree(frames: seq<Frame>, c: nat, y: GoSystem.Sys, id: Id,
                           timed: TsModel.Timed, t: TsModel.Ts, jd: Id)
    requires Agreed(frames)
    requires GoSystem.Reachable(c, y) && id in y.slots && y.slots[id].q.popped <= frames
    requires Reachable(timed, t) && TsModel.HasStream(t, jd) && t.reqs[jd].heard <= frames
    requires !t.reqs[jd].stream.value.cancelled
    ensures var body := BodyOf(Interpret(frames));
            y.slots[id].pipe.delivered <= body && Concat(t.reqs[jd].stream.value.delivered) <= body
  {
    CallersAgreeIff(frames);
    GoTheorems.CallerRefinesInterpret(c, y, id);
    InterpretMonotone(y.slots[id].q.popped, frames);
    TsRefines(timed, t, jd);
    TsMonotone(t.reqs[jd].heard, frames);
  }

  /** On an agreed list, what one caller refuses for what the peer said the other refuses in the same words. */
  lemma RefusalsInterchangeable(frames: seq<Frame>, c: nat, y: GoSystem.Sys, id: Id,
                                timed: TsModel.Timed, t: TsModel.Ts, jd: Id)
    requires Agreed(frames)
    requires GoSystem.Reachable(c, y) && id in y.slots && y.slots[id].q.popped <= frames && y.slots[id].req.RDone?
    requires Reachable(timed, t) && jd in t.reqs && t.reqs[jd].heard <= frames
    ensures var o, p := y.slots[id].req.o, t.reqs[jd].promise;
            && (o.Failed? && FromFrames(o.why) && p.Rejected? && FromFrames(p.why) ==>
                  TsModel.MessageOnly(o.why) == p.why)
            && !(o.Failed? && FromFrames(o.why) && p.Resolved?)
            && !(!o.Failed? && p.Rejected? && FromFrames(p.why))
  {
    CallersAgreeIff(frames);
    GoTheorems.CallerRefinesInterpret(c, y, id);
    InterpretMonotone(y.slots[id].q.popped, frames);
    PromiseRefines(timed, t, jd);
    TsMonotone(t.reqs[jd].heard, frames);
  }

  lemma HolderHasBody(c: nat, y: GoSystem.Sys, id: Id)
    requires GoSystem.Reachable(c, y) && id in y.slots && GoCaller.Holder(y.slots[id])
    ensures var v := Interpret(y.slots[id].q.popped); HasBody(v) && y.slots[id].req.o.head == v.head
  {
    GoTheorems.CallerRefinesInterpret(c, y, id);
  }

  // ----- what handlers send is always agreed -----

  predicate Decodable(f: Frame) {
    match f
    case Response(p) => p.Some?
    case Start(h) => h.Some?
    case Chunk(d) => d.Some?
    case Error(i) => i.Some?
    case _ => true
  }

  lemma {:induction false} TailAgreed(fs: seq<Frame>)
    requires HandlerTheorems.Tail(fs) && forall i :: 0 <= i < |fs| ==> Decodable(fs[i])
    ensures StreamAgreed(fs)
  {
    if fs != [] && fs[0].Chunk? {
      var rest := fs[1..];
      assert forall i :: 0 <= i < |rest| ==> rest[i] == fs[i + 1];
      TailAgreed(rest);
    }
  }

  /** Every prefix of a grammatical response means the same to both callers. */
  lemma GrammarAgreed(fs: seq<Frame>)
    requires HandlerModel.Grammar(fs) && forall i :: 0 <= i < |fs| ==> Decodable(fs[i])
    ensures Agreed(fs) && Forget(Interpret(fs)) == TsInterpret(fs)
  {
    if fs != [] && fs[0].Start? {
      var rest := fs[1..];
      assert forall i :: 0 <= i < |rest| ==> rest[i] == fs[i + 1];
      TailAgreed(rest);
    }
    CallersAgreeIff(fs);
  }
}
