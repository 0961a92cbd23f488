/**
 What a served run has done to each MAC's correlation state and accounting id: the RADIUS
 session that the service keeps is the one that its own calls determine, and the accounting
 session id never changes.
 */
module History {
  import opened Wrappers
  import opened Octets
  import opened Pacp
  import opened PaeTypes
  import opened PaePort
  import opened Radius
  import opened RadiusTheorems
  import opened Correlation
  import opened Dispatch
  import opened DispatchTheorems
  import opened Worker
  import opened Serving
  import opened Conversation

  // ---- the calls the service makes ----

  /** The reply that is presented for a request, if the server sent one. */
  function Presented(env: Env, w: World, b: Build): seq<Call> {
    if b.r.Err? then []
    else
      match env.answer(w.calls, b.r.value)
      case None => []
      case Some(reply) => [ReplyCall(reply, env.secret)]
  }

  /** What one effect calls on the RADIUS session of `x`. */
  function CallsOf(env: Env, w: World, de: Directed, x: Mac): seq<Call> {
    var rs, ctx, nonce := StateOf(w.sessions, x).radius, ContextFor(w, x), env.nonce(w.calls);
    match de.effect
    case ToAuthServer(eap) =>
      if de.mac != Some(x) then []
      else [EapCall(ctx, EapIdentity(eap), eap, nonce, env.secret)] + Presented(env, w, RequestFor(env, w, x, eap))
    case StartMab(mac) =>
      if mac != x then []
      else [MabCall(ctx, nonce, env.secret)] + Presented(env, w, BuildMab(env.codec, rs, ctx, nonce, env.secret))
    case Accounting(_) => if de.mac == Some(x) then [AcctCall] else []
    case _ => []
  }

  function BatchCalls(env: Env, w: World, m: Mac, out: seq<Directed>, x: Mac): seq<Call>
    decreases |out|
  {
    if out == [] then []
    else
      var d := BatchOne(env, w, m, out[0]);
      CallsOf(env, w, out[0], x) + if d.r.Err? then [] else BatchCalls(env, d.w, m, out[1..], x)
  }

  /** Everything the service has called on the RADIUS session of `x`, in order. */
  function ServiceCalls(env: Env, cfg: PaeConfig, w: World, heard: seq<PortInput>, x: Mac): seq<Call>
    decreases |heard|
  {
    if heard == [] then []
    else
      var init, input := heard[..|heard| - 1], heard[|heard| - 1];
      var v := HearAll(env, cfg, w, init);
      ServiceCalls(env, cfg, w, init, x)
      + if v.r.Err? then []
        else BatchCalls(env, Reached(v.w, input), Addressee(input), PortStep(cfg, v.ss, input).out, x)
  }

  // ---- the state they leave ----

  function Replay(codec: Codec, rs: Rs, calls: seq<Call>): Rs
    decreases |calls|
  {
    if calls == [] then rs else Replay(codec, Correlation.Perform(codec, rs, calls[0]).rs, calls[1..])
  }

  lemma {:induction false} ReplayAppend(codec: Codec, rs: Rs, a: seq<Call>, b: seq<Call>)
    ensures Replay(codec, rs, a + b) == Replay(codec, Replay(codec, rs, a), b)
    decreases |a|
  {
    if a == [] {
      assert a + b == b;
    } else {
      assert (a + b)[1..] == a[1..] + b;
      ReplayAppend(codec, Correlation.Perform(codec, rs, a[0]).rs, a[1..], b);
    }
  }

  lemma ReplayOne(codec: Codec, rs: Rs, c: Call)
    ensures Replay(codec, rs, [c]) == Correlation.Perform(codec, rs, c).rs
  {
    assert [c][1..] == [];
  }

  lemma {:induction false} ReplayIsState(codec: Codec, calls: seq<Call>, n: nat)
    requires n <= |calls|
    ensures Replay(codec, FRESH, calls[..n]) == StateAt(codec, calls, n)
  {
    if n == 0 {
    } else {
      ReplayIsState(codec, calls, n - 1);
      assert calls[..n] == calls[..n - 1] + [calls[n - 1]];
      ReplayAppend(codec, FRESH, calls[..n - 1], [calls[n - 1]]);
      ReplayOne(codec, StateAt(codec, calls, n - 1), calls[n - 1]);
    }
  }

  lemma ExchangeReplays(env: Env, w: World, mac: Mac, ask: Call, b: Build, x: Mac)
    requires Correlation.Perform(env.codec, StateOf(w.sessions, mac).radius, ask).rs == b.rs
    ensures StateOf(Exchange(env, w, mac, b).w.sessions, x).radius
         == if x == mac then Replay(env.codec, StateOf(w.sessions, x).radius, [ask] + Presented(env, w, b))
            else StateOf(w.sessions, x).radius
  {
    var rs := StateOf(w.sessions, mac).radius;
    ReplayAppend(env.codec, rs, [ask], Presented(env, w, b));
    ReplayOne(env.codec, rs, ask);
    if Presented(env, w, b) != [] {
      ReplayOne(env.codec, b.rs, Presented(env, w, b)[0]);
    }
  }

  lemma EapReplays(env: Env, w: World, m: Mac, mac: Mac, eap: Bytes, x: Mac)
    ensures var de := Directed(Some(mac), ToAuthServer(eap));
            StateOf(BatchOne(env, w, m, de).w.sessions, x).radius
            == Replay(env.codec, StateOf(w.sessions, x).radius, CallsOf(env, w, de, x))
  {
    ExchangeReplays(env, w, mac, EapCall(ContextFor(w, mac), EapIdentity(eap), eap, env.nonce(w.calls), env.secret),
                    RequestFor(env, w, mac, eap), x);
  }

  lemma MabReplays(env: Env, w: World, m: Mac, to: Option<Mac>, mac: Mac, x: Mac)
    ensures var de := Directed(to, StartMab(mac));
            StateOf(BatchOne(env, w, m, de).w.sessions, x).radius
            == Replay(env.codec, StateOf(w.sessions, x).radius, CallsOf(env, w, de, x))
  {
    var ask := MabCall(ContextFor(w, mac), env.nonce(w.calls), env.secret);
    ExchangeReplays(env, w, mac, ask,
                    BuildMab(env.codec, StateOf(w.sessions, mac).radius, ContextFor(w, mac), env.nonce(w.calls), env.secret), x);
  }

  lemma OtherReplays(env: Env, w: World, m: Mac, de: Directed, x: Mac)
    requires !Asks(de)
    ensures StateOf(BatchOne(env, w, m, de).w.sessions, x).radius
         == Replay(env.codec, StateOf(w.sessions, x).radius, CallsOf(env, w, de, x))
  {
    ReplayOne(env.codec, StateOf(w.sessions, x).radius, AcctCall);
  }

  lemma OneReplays(env: Env, w: World, m: Mac, de: Directed, x: Mac)
    ensures StateOf(BatchOne(env, w, m, de).w.sessions, x).radius
         == Replay(env.codec, StateOf(w.sessions, x).radius, CallsOf(env, w, de, x))
  {
    if !Asks(de) {
      OtherReplays(env, w, m, de, x);
    } else if de.effect.StartMab? {
      MabReplays(env, w, m, de.mac, de.effect.mac, x);
    } else {
      EapReplays(env, w, m, de.mac.value, de.effect.relay, x);
    }
  }

  lemma {:induction false} BatchReplays(env: Env, w: World, m: Mac, out: seq<Directed>, x: Mac)
    ensures StateOf(DispatchAll(env, w, m, out).w.sessions, x).radius
         == Replay(env.codec, StateOf(w.sessions, x).radius, BatchCalls(env, w, m, out, x))
    decreases |out|
  {
    if out == [] {
    } else {
      var d := BatchOne(env, w, m, out[0]);
      OneReplays(env, w, m, out[0], x);
      if d.r.Ok? {
        BatchReplays(env, d.w, m, out[1..], x);
        ReplayAppend(env.codec, StateOf(w.sessions, x).radius, CallsOf(env, w, out[0], x), BatchCalls(env, d.w, m, out[1..], x));
      } else {
        assert CallsOf(env, w, out[0], x) + [] == CallsOf(env, w, out[0], x);
      }
    }
  }

  lemma BringUpCallsNothing(env: Env, w: World, x: Mac)
    ensures StateOf(BringUp(env, w).w.sessions, x) == StateOf(w.sessions, x)
  {
    BatchOfOne(env, Trapped(env, w), NO_MAC, PORT_CLOSED);
  }

  lemma {:induction false} RunReplays(env: Env, cfg: PaeConfig, w: World, heard: seq<PortInput>, x: Mac)
    ensures StateOf(HearAll(env, cfg, w, heard).w.sessions, x).radius
         == Replay(env.codec, StateOf(w.sessions, x).radius, ServiceCalls(env, cfg, w, heard, x))
    decreases |heard|
  {
    if heard == [] {
      BringUpCallsNothing(env, w, x);
    } else {
      var init, input := heard[..|heard| - 1], heard[|heard| - 1];
      var v := HearAll(env, cfg, w, init);
      RunReplays(env, cfg, w, init, x);
      var more := if v.r.Err? then [] else BatchCalls(env, Reached(v.w, input), Addressee(input), PortStep(cfg, v.ss, input).out, x);
      ReplayAppend(env.codec, StateOf(w.sessions, x).radius, ServiceCalls(env, cfg, w, init, x), more);
      if v.r.Ok? {
        BatchReplays(env, Reached(v.w, input), Addressee(input), PortStep(cfg, v.ss, input).out, x);
      }
    }
  }

  // ---- the history theorems hold of the service ----

  /** The calls a served run has made for `x`. */
  function Called(env: Env, cfg: PaeConfig, w: World, inputs: seq<PortInput>, x: Mac): seq<Call> {
    ServiceCalls(env, cfg, w, Heard(env, cfg, w, inputs), x)
  }

  /** After every served run, ended by an error or not, the correlation state of each MAC is that of the calls made for it. */
  lemma ServiceIsHistory(env: Env, cfg: PaeConfig, w: World, inputs: seq<PortInput>, x: Mac)
    requires w.sessions == map[]
    ensures var calls := Called(env, cfg, w, inputs, x);
            StateOf(ServeAll(env, cfg, w, inputs).w.sessions, x).radius == StateAt(env.codec, calls, |calls|)
  {
    var calls := Called(env, cfg, w, inputs, x);
    ServeIsHear(env, cfg, w, inputs);
    RunReplays(env, cfg, w, Heard(env, cfg, w, inputs), x);
    ReplayIsState(env.codec, calls, |calls|);
    assert calls[..|calls|] == calls;
  }

  /**
   The next EAP request the service makes for `x` carries the Identifier that counts its
   attempts modulo 256, the State of the last reply verified for `x`, or none, and the last
   identity seen.
   */
  lemma ServiceRequest(env: Env, cfg: PaeConfig, w: World, inputs: seq<PortInput>, x: Mac, eap: Bytes)
    requires w.sessions == map[]
    requires RequestFor(env, ServeAll(env, cfg, w, inputs).w, x, eap).r.Ok?
    ensures var calls := Called(env, cfg, w, inputs, x);
            var q := RequestFor(env, ServeAll(env, cfg, w, inputs).w, x, eap).r.value;
            && q.identifier == Attempts(calls, |calls|) % 256
            && FindAttr(q.attrs, STATE) == EchoedState(env.codec, calls, |calls|)
            && FindAttr(q.attrs, USER_NAME)
               == (if EapIdentity(eap).Some? then EapIdentity(eap) else LastIdentity(calls, |calls|))
            && Reassemble(q.attrs) == eap
  {
    var calls, u := Called(env, cfg, w, inputs, x), ServeAll(env, cfg, w, inputs).w;
    var rs := StateOf(u.sessions, x).radius;
    ServiceIsHistory(env, cfg, w, inputs, x);
    StateTracks(env.codec, calls, |calls|);
    RelayIsVerbatim(env.codec, ContextFor(u, x), rs.nextId, env.nonce(u.calls),
                    if EapIdentity(eap).Some? then EapIdentity(eap) else rs.userName, rs.lastState, eap, env.secret);
  }

  /** Every reply is presented right after a request, which is therefore the one outstanding. */
  predicate Paired(calls: seq<Call>) {
    forall i :: 0 <= i < |calls| && calls[i].ReplyCall? ==> i > 0 && IsRequest(calls[i - 1])
  }

  lemma PairedAppend(a: seq<Call>, b: seq<Call>)
    requires Paired(a) && Paired(b)
    ensures Paired(a + b)
  {
  }

  lemma OnePaired(env: Env, w: World, de: Directed, x: Mac)
    ensures Paired(CallsOf(env, w, de, x))
  {
  }

  lemma {:induction false} BatchPaired(env: Env, w: World, m: Mac, out: seq<Directed>, x: Mac)
    ensures Paired(BatchCalls(env, w, m, out, x))
    decreases |out|
  {
    if out == [] {
    } else {
      var d := BatchOne(env, w, m, out[0]);
      OnePaired(env, w, out[0], x);
      BatchPaired(env, d.w, m, out[1..], x);
      PairedAppend(CallsOf(env, w, out[0], x), if d.r.Err? then [] else BatchCalls(env, d.w, m, out[1..], x));
    }
  }

  lemma {:induction false} RunPaired(env: Env, cfg: PaeConfig, w: World, heard: seq<PortInput>, x: Mac)
    ensures Paired(ServiceCalls(env, cfg, w, heard, x))
    decreases |heard|
  {
    if heard == [] {
    } else {
      var init, input := heard[..|heard| - 1], heard[|heard| - 1];
      var v := HearAll(env, cfg, w, init);
      RunPaired(env, cfg, w, init, x);
      BatchPaired(env, Reached(v.w, input), Addressee(input), PortStep(cfg, v.ss, input).out, x);
      PairedAppend(ServiceCalls(env, cfg, w, init, x),
                   if v.r.Err? then []
                   else BatchCalls(env, Reached(v.w, input), Addressee(input), PortStep(cfg, v.ss, input).out, x));
    }
  }

  /** In every served run each reply meets the request made just before it: no reply is presented late or twice. */
  lemma RepliesMeetRequests(env: Env, cfg: PaeConfig, w: World, inputs: seq<PortInput>, x: Mac, i: nat)
    requires var calls := Called(env, cfg, w, inputs, x); i < |calls| && calls[i].ReplyCall?
    ensures i > 0 && Outstanding(Called(env, cfg, w, inputs, x), i) == Some(i - 1)
  {
    RunPaired(env, cfg, w, Heard(env, cfg, w, inputs), x);
  }

  // ---- accounting session ids ----

  lemma ExchangeKeepsId(env: Env, w: World, mac: Mac, b: Build, x: Mac)
    ensures var u := Exchange(env, w, mac, b).w;
            u.port == w.port && StateOf(u.sessions, x).acctId == StateOf(w.sessions, x).acctId
  {
  }

  /** An effect gives a MAC its id at its first accounting request, and never changes it. */
  lemma OneKeepsId(env: Env, w: World, m: Mac, de: Directed, x: Mac)
    ensures var u := BatchOne(env, w, m, de).w;
            && u.port == w.port
            && StateOf(u.sessions, x).acctId
               == if de.effect.Accounting? && de.mac == Some(x) then Some(AcctIdFor(w, x)) else StateOf(w.sessions, x).acctId
  {
    if Asks(de) {
      var mac, b := RequestIsExchange(env, w, de);
      ExchangeKeepsId(env, w, mac, b, x);
    }
  }

  /** An id that is there stays, and one that comes names its MAC. */
  predicate KeepsId(w: World, u: World, x: Mac) {
    var before, after := StateOf(w.sessions, x).acctId, StateOf(u.sessions, x).acctId;
    && u.port == w.port
    && (before.Some? ==> after == before)
    && (before.None? && after.Some? ==> after.value.mac == x)
  }

  lemma {:induction false} BatchKeepsId(env: Env, w: World, m: Mac, out: seq<Directed>, x: Mac)
    ensures KeepsId(w, DispatchAll(env, w, m, out).w, x)
    decreases |out|
  {
    if out == [] {
    } else {
      OneKeepsId(env, w, m, out[0], x);
      BatchKeepsId(env, BatchOne(env, w, m, out[0]).w, m, out[1..], x);
    }
  }

  lemma HearKeepsId(env: Env, cfg: PaeConfig, w: World, heard: seq<PortInput>, input: PortInput, x: Mac)
    ensures KeepsId(HearAll(env, cfg, w, heard).w, HearAll(env, cfg, w, heard + [input]).w, x)
  {
    var v := HearAll(env, cfg, w, heard);
    HearSnoc(env, cfg, w, heard, input);
    BatchKeepsId(env, Reached(v.w, input), Addressee(input), PortStep(cfg, v.ss, input).out, x);
  }

  lemma {:induction false} RunKeepsId(env: Env, cfg: PaeConfig, w: World, heard: seq<PortInput>, more: seq<PortInput>, x: Mac)
    ensures KeepsId(HearAll(env, cfg, w, heard).w, HearAll(env, cfg, w, heard + more).w, x)
    decreases |more|
  {
    if more == [] {
      assert heard + more == heard;
    } else {
      var init := more[..|more| - 1];
      RunKeepsId(env, cfg, w, heard, init, x);
      HearKeepsId(env, cfg, w, heard + init, more[|more| - 1], x);
      SplitLast(heard, more);
    }
  }

  /** Two accounting requests for a MAC carry the same id, whatever is dispatched between them: a second Start reuses the first one's. */
  lemma SecondStartReusesId(env: Env, w: World, m: Mac, first: AcctTrigger, between: seq<Directed>, x: Mac)
    ensures var one := BatchOne(env, w, m, Directed(Some(x), Accounting(first))).w;
            AcctIdFor(DispatchAll(env, one, m, between).w, x) == AcctIdFor(w, x)
  {
    OneKeepsId(env, w, m, Directed(Some(x), Accounting(first)), x);
    BatchKeepsId(env, BatchOne(env, w, m, Directed(Some(x), Accounting(first))).w, m, between, x);
  }

  /**
   Over every service of a port: a MAC that has an accounting session id keeps it through every
   session it ever has, and two accounted sessions carry different ids exactly when they belong
   to different MACs.
   */
  lemma AccountingIdIsPerMac(env: Env, cfg: PaeConfig, w: World, heard: seq<PortInput>, more: seq<PortInput>, x: Mac, y: Mac)
    requires w.sessions == map[]
    requires StateOf(HearAll(env, cfg, w, heard).w.sessions, x).acctId.Some?
    requires StateOf(HearAll(env, cfg, w, heard + more).w.sessions, y).acctId.Some?
    ensures AcctIdFor(HearAll(env, cfg, w, heard).w, x) == AcctIdFor(HearAll(env, cfg, w, heard + more).w, y) <==> x == y
  {
    BringUpCallsNothing(env, w, x);
    BringUpCallsNothing(env, w, y);
    assert [] + heard == heard && [] + (heard + more) == heard + more;
    RunKeepsId(env, cfg, w, [], heard, x);
    RunKeepsId(env, cfg, w, [], heard + more, y);
    RunKeepsId(env, cfg, w, heard, more, x);
  }
}
