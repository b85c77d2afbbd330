/** What the wire carries for one request, whatever the handler and the transport do. */
module HandlerTheorems {
  import opened Protocol
  import opened HandlerModel

  // ----- the trace a handler tries to send is one whole response -----

  ghost predicate WriterInv(w: Writer) {
    if !w.started then w.tried == []
    else w.tried != [] && w.tried[0].Start? && forall i :: 1 <= i < |w.tried| ==> w.tried[i].Chunk?
  }

  lemma OpKeepsWriter(fate: Fate, w: Writer, op: Op)
    requires WriterInv(w)
    ensures WriterInv(DoOp(fate, w, op).0)
  {}

  lemma {:induction false} ProgKeepsWriter(fate: Fate, w: Writer, p: Prog)
    requires WriterInv(w)
    ensures WriterInv(DoProg(fate, w, p))
    decreases p
  {
    if p.Do? {
      OpKeepsWriter(fate, w, p.op);
      var (w1, r) := DoOp(fate, w, p.op);
      ProgKeepsWriter(fate, w1, if r then p.ok else p.failed);
    }
  }

  /** What may follow a Start. */
  ghost predicate Tail(fs: seq<Frame>) {
    forall i :: 0 <= i < |fs| ==> fs[i].Chunk? || (Terminal(fs[i]) && i == |fs| - 1)
  }

  lemma StartTail(head: Head, fs: seq<Frame>)
    requires Tail(fs) && fs != [] && Terminal(fs[|fs| - 1])
    ensures Complete([Start(Some(head))] + fs)
  {
    var t := [Start(Some(head))] + fs;
    assert forall i :: 1 <= i < |t| ==> t[i] == fs[i - 1];
  }

  lemma {:induction false} PumpShape(fate: Fate, n: nat, script: seq<UpRead>)
    ensures var (fs, failed) := PumpTried(fate, n, script);
            fs != [] && Tail(fs) && (if failed then fs[|fs| - 1].Chunk? else fs[|fs| - 1].End?)
    decreases script
  {
    if script != [] {
      var r := script[0];
      PumpShape(fate, n + if r.data != [] then 1 else 0, script[1..]);
    }
  }

  lemma AdapterComplete(fate: Fate, p: Prog)
    ensures Complete(AdapterTried(fate, p))
  {
    ProgKeepsWriter(fate, NEW_WRITER, p);
  }

  lemma ForwardComplete(fate: Fate, up: Upstream)
    ensures Complete(DispatchTried(fate, Forward(up)))
  {
    if up.Answer? {
      PumpShape(fate, 1, up.script);
      var (fs, failed) := PumpTried(fate, 1, up.script);
      var s := [Start(Some(up.head))];
      if failed {
        var e := [Report(true, SEND_FAILED)];
        assert (s + fs) + e == s + (fs + e);
        StartTail(up.head, fs + e);
      } else {
        StartTail(up.head, fs);
      }
    }
  }

  /** Every in-repository handler tries to send exactly one whole response. */
  lemma DispatchComplete(fate: Fate, h: Handler)
    requires !h.User?
    ensures Complete(DispatchTried(fate, h))
  {
    match h
    case Adapter(p) => AdapterComplete(fate, p);
    case Forward(up) => ForwardComplete(fate, up);
    case _ =>
  }

  // ----- a user-written streaming handler -----

  /** Header first; Close only as the last effective call, and only when returning nil. */
  ghost predicate Disciplined(calls: seq<Call>, err: Option<Bytes>) {
    calls == [] || (calls[0].CallHeader? && ClosesLast(calls, err))
  }

  ghost predicate ClosesLast(calls: seq<Call>, err: Option<Bytes>) {
    forall i :: 0 <= i < |calls| && calls[i].CallClose? ==>
      err.None? && forall j :: i < j < |calls| ==> calls[j].CallHeader?
  }

  lemma {:induction false} OnlyHeaders(calls: seq<Call>)
    ensures CallsTried(calls, true) == [] <==> forall j :: 0 <= j < |calls| ==> calls[j].CallHeader?
  {
    if calls != [] {
      OnlyHeaders(calls[1..]);
      assert forall j :: 1 <= j < |calls| ==> calls[j] == calls[1..][j - 1];
    }
  }

  lemma {:induction false} TailIffClosesLast(calls: seq<Call>, err: Option<Bytes>)
    ensures Tail(Finish(CallsTried(calls, true), true, err)) <==> ClosesLast(calls, err)
  {
    if calls != [] {
      var rest := calls[1..];
      TailIffClosesLast(rest, err);
      OnlyHeaders(rest);
      var t := Finish(CallsTried(rest, true), true, err);
      assert forall j :: 1 <= j < |calls| ==> calls[j] == rest[j - 1];
      assert ClosesLast(calls, err) <==>
             ClosesLast(rest, err) && (calls[0].CallClose? ==>
                                         err.None? && forall j :: 0 <= j < |rest| ==> rest[j].CallHeader?);
      match calls[0]
      case CallHeader(h) => assert [] + CallsTried(rest, true) == CallsTried(rest, true);
      case CallWrite(d) =>
        assert Finish(CallsTried(calls, true), true, err) == [Chunk(Some(d))] + t;
        TailCons(Chunk(Some(d)), t);
      case CallClose =>
        assert Finish(CallsTried(calls, true), true, err) == [End] + t;
        TailCons(End, t);
    }
  }

  lemma TailCons(f: Frame, t: seq<Frame>)
    ensures Tail([f] + t) <==> (f.Chunk? && Tail(t)) || (Terminal(f) && t == [])
  {
    var u := [f] + t;
    assert forall i :: 1 <= i < |u| ==> u[i] == t[i - 1];
    if Tail(u) && f.Chunk? {
      forall i | 0 <= i < |t| ensures t[i].Chunk? || (Terminal(t[i]) && i == |t| - 1) {
        assert u[i + 1] == t[i];
      }
    }
    assert u[0] == f;
  }

  lemma {:induction false} TriedBeforeHeader(calls: seq<Call>)
    requires calls != []
    ensures CallsTried(calls, false) != []
    ensures CallsTried(calls, false)[0].Start? <==> calls[0].CallHeader?
  {}

  lemma GrammarIsTail(head: Head, rest: seq<Frame>)
    ensures Grammar([Start(Some(head))] + rest) <==> Tail(rest)
  {
    var t := [Start(Some(head))] + rest;
    assert forall i :: 1 <= i < |t| ==> t[i] == rest[i - 1];
    assert forall i :: 0 <= i < |rest| ==> rest[i] == t[i + 1];
  }

  lemma HeaderIsHarmless(calls: seq<Call>, err: Option<Bytes>)
    requires calls != [] && calls[0].CallHeader?
    ensures ClosesLast(calls, err) <==> ClosesLast(calls[1..], err)
  {
    var cs := calls[1..];
    assert forall j :: 1 <= j < |calls| ==> calls[j] == cs[j - 1];
    assert forall j :: 0 <= j < |cs| ==> cs[j] == calls[j + 1];
  }

  /** A user handler obeys the grammar exactly when it is disciplined. */
  lemma UserGrammarIff(calls: seq<Call>, err: Option<Bytes>, fate: Fate)
    ensures Grammar(DispatchTried(fate, User(calls, err))) <==> Disciplined(calls, err)
  {
    if calls != [] {
      TriedBeforeHeader(calls);
      if calls[0].CallHeader? {
        TailIffClosesLast(calls[1..], err);
        var rest := Finish(CallsTried(calls[1..], true), true, err);
        assert DispatchTried(fate, User(calls, err)) == [Start(Some(calls[0].head))] + rest;
        GrammarIsTail(calls[0].head, rest);
        HeaderIsHarmless(calls, err);
      }
    }
  }

  // ----- transports that fail -----

  /** A whole response keeps its shape on the wire exactly if its first envelope got through or none did. */
  lemma {:induction false} AcceptedTail(tried: seq<Frame>, fate: Fate)
    requires tried != [] && tried[0].Start? && Grammar(tried)
    ensures var a := Accepted(tried, fate);
            && (fate(0) ==> a != [] && a[0] == tried[0])
            && Tail(if fate(0) then a[1..] else a)
            && (!Terminal(tried[|tried| - 1]) ==> forall i :: 0 <= i < |a| ==> !Terminal(a[i]))
  {
    var n := |tried| - 1;
    if n == 0 {
      assert tried[..0] == [];
      assert Accepted(tried, fate) == if fate(0) then [tried[0]] else [];
    } else {
      AcceptedTail(tried[..n], fate);
      var a := Accepted(tried[..n], fate);
      if fate(n) { assert fate(0) ==> (a + [tried[n]])[1..] == a[1..] + [tried[n]]; }
    }
  }

  lemma {:induction false} AcceptedNothing(tried: seq<Frame>, fate: Fate)
    ensures Accepted(tried, fate) == [] <==> forall i :: 0 <= i < |tried| ==> !fate(i)
  {
    if tried != [] { AcceptedNothing(tried[..|tried| - 1], fate); }
  }

  /**
   For every transport, sticky or not: what reaches the wire of a grammatical list of envelopes
   obeys the grammar if and only if the first send succeeded or every send failed.
   */
  lemma WireGrammarIff(tried: seq<Frame>, fate: Fate)
    requires Grammar(tried)
    ensures Grammar(Accepted(tried, fate)) <==> (fate(0) || forall i :: 0 <= i < |tried| ==> !fate(i))
  {
    AcceptedNothing(tried, fate);
    var a := Accepted(tried, fate);
    if tried != [] {
      if tried[0].Response? {
        assert tried[..0] == [];
        assert a == Accepted([], fate) + if fate(0) then [tried[0]] else [];
      } else {
        AcceptedTail(tried, fate);
        if fate(0) {
          assert forall i :: 1 <= i < |a| ==> a[i] == a[1..][i - 1];
        }
      }
    }
  }

  /** A sticky transport puts a prefix of what was tried on the wire. */
  lemma {:induction false} StickyPrefix(tried: seq<Frame>, fate: Fate)
    requires Sticky(fate)
    ensures Accepted(tried, fate) <= tried
    ensures tried != [] && fate(|tried| - 1) ==> Accepted(tried, fate) == tried
    ensures Accepted(tried, fate) == tried[..|Accepted(tried, fate)|]
    ensures |Accepted(tried, fate)| < |tried| ==> !fate(|Accepted(tried, fate)|)
  {
    if tried != [] {
      var n := |tried| - 1;
      StickyPrefix(tried[..n], fate);
      if fate(n) {
        assert n > 0 ==> fate(n - 1);
        assert Accepted(tried[..n], fate) == tried[..n];
        assert tried == tried[..n] + [tried[n]];
      }
    }
  }

  /** The in-repository handlers, and user-written ones that keep to the rules. */
  ghost predicate WellBehaved(h: Handler) { h.User? ==> Disciplined(h.calls, h.err) }

  /** Any well-behaved handler on a sticky transport: only prefixes of one response are sent. */
  lemma HandlerGrammar(h: Handler, fate: Fate)
    requires Sticky(fate) && WellBehaved(h)
    ensures Grammar(Accepted(DispatchTried(fate, h), fate))
  {
    if h.User? { UserGrammarIff(h.calls, h.err, fate); } else { DispatchComplete(fate, h); }
    WireGrammarIff(DispatchTried(fate, h), fate);
    if !fate(0) { assert forall i: nat :: 0 <= i ==> !fate(i); }
  }

  /** Without stickiness a chunk can travel without its Start. */
  lemma RecoveringTransportBreaksGrammar()
    ensures var fate: Fate := n => n != 0;
            !Grammar(Accepted(DispatchTried(fate, Adapter(Do(Write([65]), Return, Return))), fate))
  {
    var fate: Fate := n => n != 0;
    var p := Do(Write([65]), Return, Return);
    DispatchComplete(fate, Adapter(p));
    WireGrammarIff(DispatchTried(fate, Adapter(p)), fate);
    var w := DoProg(fate, NEW_WRITER, p);
    assert w.tried == [Start(Some(Head(200, map[])))] + [Chunk(Some([65]))];
    var t := w.tried + [End];
    assert t[..2] == w.tried && Accepted(t, fate) == Accepted(t[..2], fate) + [End];
  }
}
