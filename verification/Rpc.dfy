/**
 * The RPC over a Unix socket: the client's blocking `call`, which never looks
 * at response identifiers (backend/proton-rpc.c), and the server's reader and
 * responder for one connection (helper/rpc/server.go).
 */
module Rpc {
  import opened Outcome

  datatype Request = Request(id: nat, name: string)
  datatype Failure = Failure(code: int, message: string)
  datatype Response = Response(id: nat, result: Option<string>, error: Option<Failure>)

  const ERR_INTERNAL: int := -32603

  /** What a registered handler may do with a request. */
  datatype HandlerOutcome = Value(result: string) | RpcFailure(failure: Failure) | PlainFailure(message: string)

  /** `dispatch`: `handler` is absent for an unknown method. */
  function Dispatch(req: Request, handler: Option<HandlerOutcome>): Response {
    match handler
    case None => Response(req.id, None, Some(Failure(ERR_INTERNAL, "unknown method: " + req.name)))
    case Some(Value(v)) => Response(req.id, Some(v), None)
    case Some(RpcFailure(f)) => Response(req.id, None, Some(f))
    case Some(PlainFailure(m)) => Response(req.id, None, Some(Failure(ERR_INTERNAL, m)))
  }

  /**
   * What a response tells the caller of the request: the handler's value and
   * nothing but it as result, and else the handler's own failure, or an internal
   * one if the handler failed plainly or the method is unknown.
   */
  ghost predicate AnswersTo(response: Response, req: Request, handler: Option<HandlerOutcome>) {
    && response.id == req.id
    && (forall v :: response.result == Some(v) <==> handler == Some(Value(v)))
    && (response.error.None? <==> response.result.Some?)
    && (forall f :: handler == Some(RpcFailure(f)) ==> response.error == Some(f))
    && (forall m :: handler == Some(PlainFailure(m)) ==> response.error == Some(Failure(ERR_INTERNAL, m)))
    && (handler.None? ==> response.error == Some(Failure(ERR_INTERNAL, "unknown method: " + req.name)))
  }

  lemma DispatchAnswers(req: Request, handler: Option<HandlerOutcome>)
    ensures AnswersTo(Dispatch(req, handler), req, handler)
  {
  }

  // ----- one connection, seen from the server -----

  datatype Line = WellFormed(req: Request) | Malformed

  /** A request that was answered, what its handler did, and the response. */
  datatype Exchange = Exchange(req: Request, handler: Option<HandlerOutcome>, response: Response)

  /**
   * `lines` were sent and not yet read; `hand` is held by the reader until the
   * responder takes it over the unbuffered channel; `busy` is being answered;
   * `served` has been answered, and the client has read the first `taken`
   * responses of it.
   */
  datatype Conn = Conn(
    lines: seq<Line>,
    hand: Option<Request>,
    busy: Option<Request>,
    served: seq<Exchange>,
    taken: nat)

  datatype ServerStep = Scan | HandOver | Respond(handler: Option<HandlerOutcome>)

  predicate CanServe(c: Conn, s: ServerStep) {
    match s
    case Scan => c.lines != [] && c.hand.None?
    case HandOver => c.hand.Some? && c.busy.None?
    case Respond(_) => c.busy.Some?
  }

  function Serve(c: Conn, s: ServerStep): Conn
    requires CanServe(c, s)
  {
    match s
    case Scan =>
      if c.lines[0].Malformed? then c.(lines := c.lines[1..])
      else c.(lines := c.lines[1..], hand := Some(c.lines[0].req))
    case HandOver => c.(hand := None, busy := c.hand)
    case Respond(h) =>
      c.(busy := None, served := c.served + [Exchange(c.busy.value, h, Dispatch(c.busy.value, h))])
  }

  function Requests(lines: seq<Line>): seq<Request>
    decreases |lines|
  {
    if lines == [] then []
    else
      var last := lines[|lines| - 1];
      Requests(lines[..|lines| - 1]) + (if last.WellFormed? then [last.req] else [])
  }

  function Held(r: Option<Request>): seq<Request> {
    if r.Some? then [r.value] else []
  }

  function Answered(served: seq<Exchange>): (reqs: seq<Request>)
    ensures |reqs| == |served|
    decreases |served|
  {
    if served == [] then [] else Answered(served[..|served| - 1]) + [served[|served| - 1].req]
  }

  /** Every request ever written to the connection, in order, as far as the server has taken it. */
  function Pipe(c: Conn): seq<Request> {
    Answered(c.served) + Held(c.busy) + Held(c.hand) + Requests(c.lines)
  }

  /** Each response so far answers its request. */
  ghost predicate Honest(c: Conn) {
    && c.taken <= |c.served|
    && forall e | e in c.served :: AnswersTo(e.response, e.req, e.handler)
  }

  lemma {:induction false} RequestsHead(lines: seq<Line>)
    requires lines != []
    ensures Requests(lines) == (if lines[0].WellFormed? then [lines[0].req] else []) + Requests(lines[1..])
    decreases |lines|
  {
    if |lines| == 1 {
      assert lines[..0] == [] && lines[1..] == [];
    } else {
      var front := lines[..|lines| - 1];
      RequestsHead(front);
      assert lines[1..][..|lines[1..]| - 1] == front[1..];
    }
  }

  lemma {:induction false} AnsweredAt(served: seq<Exchange>, i: nat)
    requires i < |served|
    ensures Answered(served)[i] == served[i].req
    decreases |served|
  {
    if i < |served| - 1 {
      AnsweredAt(served[..|served| - 1], i);
    }
  }

  /** The server neither loses, duplicates, reorders nor alters a well-formed request, and answers it truly. */
  lemma ServeKeepsOrder(c: Conn, s: ServerStep)
    requires CanServe(c, s)
    ensures Pipe(Serve(c, s)) == Pipe(c)
    ensures Honest(c) ==> Honest(Serve(c, s))
    ensures Serve(c, s).taken == c.taken && c.served <= Serve(c, s).served
  {
    match s
    case Scan => RequestsHead(c.lines);
    case HandOver =>
    case Respond(h) =>
      DispatchAnswers(c.busy.value, h);
      var served := c.served + [Exchange(c.busy.value, h, Dispatch(c.busy.value, h))];
      assert served[..|c.served|] == c.served;
  }

  function ServeAll(c: Conn, steps: seq<ServerStep>): Conn
    requires CanServeAll(c, steps)
    decreases |steps|
  {
    if steps == [] then c else ServeAll(Serve(c, steps[0]), steps[1..])
  }

  predicate CanServeAll(c: Conn, steps: seq<ServerStep>)
    decreases |steps|
  {
    steps == [] || (CanServe(c, steps[0]) && CanServeAll(Serve(c, steps[0]), steps[1..]))
  }

  lemma {:induction false} ServeAllKeepsOrder(c: Conn, steps: seq<ServerStep>)
    requires CanServeAll(c, steps) && Honest(c)
    ensures Pipe(ServeAll(c, steps)) == Pipe(c) && Honest(ServeAll(c, steps))
    decreases |steps|
  {
    hide Pipe, Honest, Serve;
    if steps != [] {
      ServeKeepsOrder(c, steps[0]);
      ServeAllKeepsOrder(Serve(c, steps[0]), steps[1..]);
    }
  }

  /** A connection with these lines waiting. */
  function Opened(lines: seq<Line>): Conn {
    Conn(lines, None, None, [], 0)
  }

  /**
   * Whatever the interleaving of reader and responder, the responses emitted so
   * far answer the first well-formed requests, in request order, each with what
   * its own handler did; and when nothing is left to do each request has one.
   */
  lemma OneResponsePerRequestInOrder(lines: seq<Line>, steps: seq<ServerStep>)
    requires CanServeAll(Opened(lines), steps)
    ensures var c := ServeAll(Opened(lines), steps);
            && Answered(c.served) <= Requests(lines)
            && (forall i | 0 <= i < |c.served| ::
                  && c.served[i].req == Requests(lines)[i]
                  && AnswersTo(c.served[i].response, c.served[i].req, c.served[i].handler))
            && ((forall s :: !CanServe(c, s)) ==> Answered(c.served) == Requests(lines))
  {
    hide ServeAll, CanServeAll, Answered, Requests, AnswersTo;
    ServeAllKeepsOrder(Opened(lines), steps);
    var c := ServeAll(Opened(lines), steps);
    UnreadPipe(lines);
    FirstIsPrefix(Answered(c.served), Held(c.busy), Held(c.hand), Requests(c.lines));
    forall i | 0 <= i < |c.served|
      ensures c.served[i].req == Requests(lines)[i]
    {
      AnsweredAt(c.served, i);
    }
    if forall s :: !CanServe(c, s) {
      FinishedPipe(c);
    }
  }

  lemma FirstIsPrefix(a: seq<Request>, b: seq<Request>, c: seq<Request>, d: seq<Request>)
    ensures a <= a + b + c + d
  {
  }

  lemma UnreadPipe(lines: seq<Line>)
    ensures Pipe(Opened(lines)) == Requests(lines)
  {
  }

  lemma FinishedPipe(c: Conn)
    requires forall s :: !CanServe(c, s)
    ensures Pipe(c) == Answered(c.served)
  {
    assert !CanServe(c, Respond(None)) && !CanServe(c, HandOver) && !CanServe(c, Scan);
    assert c.lines == [];
  }

  // ----- the client -----

  datatype Phase = Ready | Awaiting(id: nat)

  /** What `call` gave its caller: a response, or an error. */
  datatype Return = Returned(id: nat, response: Response) | Failed(id: nat)

  /**
   * The lock makes calls serial. `conns` are all connections ever made, the
   * last one current; the server keeps working on abandoned ones. `alive` is
   * false once a send, a read or a reconnection has failed. `sent` is every
   * request a call has written, `history` what the calls gave back.
   */
  datatype World = World(
    nextId: nat,
    phase: Phase,
    conns: seq<Conn>,
    alive: bool,
    sent: seq<Request>,
    history: seq<Return>)

  datatype Step =
    | Send(name: string)          // lock, take an identifier, write the request
    | SendFails                   // the write fails and the connection is dead
    | Receive                     // a whole response line arrives first
    | Misread                     // it arrives but is not readable
    | Cancel                      // cancelled first: reconnect and return
    | CancelLost                  // cancelled, and reconnecting fails
    | ReadFails                   // end of file or a read error kills the connection
    | Server(conn: nat, step: ServerStep)

  /** The current connection has a response the client has not read. */
  predicate Readable(w: World) {
    w.conns != [] && w.conns[|w.conns| - 1].taken < |w.conns[|w.conns| - 1].served|
  }

  predicate Enabled(w: World, s: Step) {
    match s
    case Send(_) => w.phase.Ready? && w.alive && w.conns != []
    case SendFails => w.phase.Ready?
    case Receive => w.phase.Awaiting? && Readable(w)
    case Misread => w.phase.Awaiting? && Readable(w)
    case Cancel => w.phase.Awaiting?
    case CancelLost => w.phase.Awaiting?
    case ReadFails => w.phase.Awaiting?
    case Server(i, step) => i < |w.conns| && CanServe(w.conns[i], step)
  }

  const FRESH_CONN := Opened([])

  function Next(w: World, s: Step): World
    requires Enabled(w, s)
  {
    match s
    case Send(m) =>
      var last := |w.conns| - 1;
      var c := w.conns[last];
      w.(nextId := w.nextId + 1, phase := Awaiting(w.nextId), sent := w.sent + [Request(w.nextId, m)],
         conns := w.conns[last := c.(lines := c.lines + [WellFormed(Request(w.nextId, m))])])
    case SendFails =>
      w.(nextId := w.nextId + 1, alive := false, history := w.history + [Failed(w.nextId)])
    case Receive =>
      var last := |w.conns| - 1;
      var c := w.conns[last];
      w.(phase := Ready, conns := w.conns[last := c.(taken := c.taken + 1)],
         history := w.history + [Returned(w.phase.id, c.served[c.taken].response)])
    case Misread =>
      var last := |w.conns| - 1;
      var c := w.conns[last];
      w.(phase := Ready, conns := w.conns[last := c.(taken := c.taken + 1)],
         history := w.history + [Failed(w.phase.id)])
    case CancelLost =>
      w.(phase := Ready, alive := false, history := w.history + [Failed(w.phase.id)])
    case Cancel =>
      w.(phase := Ready, conns := w.conns + [FRESH_CONN], alive := true, history := w.history + [Failed(w.phase.id)])
    case ReadFails =>
      w.(phase := Ready, alive := false, history := w.history + [Failed(w.phase.id)])
    case Server(i, step) => w.(conns := w.conns[i := Serve(w.conns[i], step)])
  }

  /** Everything in all connections, in the order it was written. */
  function Flat(conns: seq<Conn>): seq<Request>
    decreases |conns|
  {
    if conns == [] then [] else Flat(conns[..|conns| - 1]) + Pipe(conns[|conns| - 1])
  }

  /** The exchange took place on some connection. */
  ghost predicate TookPlace(conns: seq<Conn>, e: Exchange) {
    exists i :: 0 <= i < |conns| && e in conns[i].served
  }

  /** What a call returned is the response of an exchange about its own identifier. */
  ghost predicate Matched(conns: seq<Conn>, r: Return) {
    r.Returned? ==> exists e :: TookPlace(conns, e) && e.req.id == r.id && e.response == r.response
  }

  /** Identifiers are never reused, so equal identifiers mean the same call. */
  ghost predicate DistinctCalls(w: World) {
    && (forall i | 0 <= i < |w.history| :: w.history[i].id < if w.phase.Awaiting? then w.phase.id else w.nextId)
    && (w.phase.Awaiting? ==> w.phase.id < w.nextId)
    && (forall i, j | 0 <= i < j < |w.history| :: w.history[i].id < w.history[j].id)
    && (forall i | 0 <= i < |w.sent| :: w.sent[i].id < w.nextId)
    && (forall i, j | 0 <= i < j < |w.sent| :: w.sent[i].id < w.sent[j].id)
  }

  /** The current connection carries the one awaited request, or nothing. */
  ghost predicate Inv(w: World) {
    && w.conns != []
    && (var c := w.conns[|w.conns| - 1];
        && (w.alive && w.phase.Ready? ==> |Pipe(c)| == c.taken)
        && (w.phase.Awaiting? ==> w.alive && |Pipe(c)| == c.taken + 1 && Pipe(c)[c.taken].id == w.phase.id))
    && (forall i | 0 <= i < |w.conns| :: Honest(w.conns[i]))
    && Flat(w.conns) == w.sent
    && (forall r | r in w.history :: Matched(w.conns, r))
    && DistinctCalls(w)
  }

  lemma {:induction false} FlatUpdate(conns: seq<Conn>, i: nat, c: Conn)
    requires i < |conns| && Pipe(c) == Pipe(conns[i])
    ensures Flat(conns[i := c]) == Flat(conns)
    decreases |conns|
  {
    hide Pipe;
    var n := |conns| - 1;
    if i < n {
      FlatUpdate(conns[..n], i, c);
      assert conns[i := c][..n] == conns[..n][i := c];
    } else {
      assert conns[i := c][..n] == conns[..n];
    }
  }

  /** What took place stays so as connections serve on. */
  lemma TookPlaceUpdate(conns: seq<Conn>, i: nat, c: Conn, r: Return)
    requires i < |conns| && conns[i].served <= c.served && Matched(conns, r)
    ensures Matched(conns[i := c], r)
  {
    if r.Returned? {
      var e :| TookPlace(conns, e) && e.req.id == r.id && e.response == r.response;
      var k :| 0 <= k < |conns| && e in conns[k].served;
      assert e in conns[i := c][k].served;
      assert TookPlace(conns[i := c], e);
    }
  }

  lemma MatchedUpdate(conns: seq<Conn>, i: nat, c: Conn, history: seq<Return>)
    requires i < |conns| && conns[i].served <= c.served && forall r | r in history :: Matched(conns, r)
    ensures forall r | r in history :: Matched(conns[i := c], r)
  {
    hide Matched;
    forall r | r in history
      ensures Matched(conns[i := c], r)
    {
      TookPlaceUpdate(conns, i, c, r);
    }
  }

  /** A request just sent is last in the pipe. */
  lemma SentPipe(c: Conn, req: Request)
    ensures Pipe(c.(lines := c.lines + [WellFormed(req)])) == Pipe(c) + [req]
  {
    hide Answered;
    var lines := c.lines + [WellFormed(req)];
    assert lines[..|c.lines|] == c.lines;
    assert Requests(lines) == Requests(c.lines) + [req];
  }

  lemma FlatSent(conns: seq<Conn>, c: Conn, req: Request)
    requires conns != [] && Pipe(c) == Pipe(conns[|conns| - 1]) + [req]
    ensures Flat(conns[|conns| - 1 := c]) == Flat(conns) + [req]
  {
    hide Pipe;
    var n := |conns| - 1;
    assert conns[n := c][..n] == conns[..n];
  }

  lemma SendKeepsInv(w: World, name: string)
    requires Inv(w) && Enabled(w, Send(name))
    ensures Inv(Next(w, Send(name)))
  {
    hide Pipe, Flat, Matched, AnswersTo;
    var c, req := w.conns[|w.conns| - 1], Request(w.nextId, name);
    var c' := c.(lines := c.lines + [WellFormed(req)]);
    SentPipe(c, req);
    FlatSent(w.conns, c', req);
    MatchedUpdate(w.conns, |w.conns| - 1, c', w.history);
  }

  /** The response that arrives is that of the awaited request. */
  lemma NextServed(c: Conn)
    requires c.taken < |c.served|
    ensures c.taken < |Pipe(c)| && Pipe(c)[c.taken] == c.served[c.taken].req
  {
    AnsweredAt(c.served, c.taken);
  }

  lemma ReceiveKeepsInv(w: World, s: Step)
    requires Inv(w) && (s.Receive? || s.Misread?) && Enabled(w, s)
    ensures Inv(Next(w, s))
  {
    hide Pipe, Flat, Matched, AnswersTo;
    var n := |w.conns| - 1;
    var c := w.conns[n];
    var c' := c.(taken := c.taken + 1);
    NextServed(c);
    PipeIgnoresTaken(c, c.taken + 1);
    FlatUpdate(w.conns, n, c');
    MatchedUpdate(w.conns, n, c', w.history);
    FailedMatches(w.conns[n := c']);
    if s.Receive? {
      ReturnedMatches(w.conns[n := c'], n, c.taken, w.phase.id);
    }
  }

  lemma PipeIgnoresTaken(c: Conn, taken: nat)
    ensures Pipe(c.(taken := taken)) == Pipe(c)
  {
  }

  lemma ReturnedMatches(conns: seq<Conn>, i: nat, j: nat, id: nat)
    requires i < |conns| && j < |conns[i].served| && conns[i].served[j].req.id == id
    ensures Matched(conns, Returned(id, conns[i].served[j].response))
  {
    assert TookPlace(conns, conns[i].served[j]);
  }

  lemma ServerKeepsInv(w: World, i: nat, step: ServerStep)
    requires Inv(w) && Enabled(w, Server(i, step))
    ensures Inv(Next(w, Server(i, step)))
  {
    hide Pipe, Flat, Matched, Serve, Honest;
    var c' := Serve(w.conns[i], step);
    ServeKeepsOrder(w.conns[i], step);
    FlatUpdate(w.conns, i, c');
    MatchedUpdate(w.conns, i, c', w.history);
  }

  lemma MatchedMore(conns: seq<Conn>, history: seq<Return>)
    requires forall r | r in history :: Matched(conns, r)
    ensures forall r | r in history :: Matched(conns + [FRESH_CONN], r)
  {
    var more := conns + [FRESH_CONN];
    forall r | r in history && r.Returned?
      ensures Matched(more, r)
    {
      var e :| TookPlace(conns, e) && e.req.id == r.id && e.response == r.response;
      var k :| 0 <= k < |conns| && e in conns[k].served;
      assert e in more[k].served;
      assert TookPlace(more, e);
    }
  }

  lemma ReturnKeepsInv(w: World, s: Step)
    requires Inv(w) && Enabled(w, s) && (s.SendFails? || s.CancelLost? || s.ReadFails?)
    ensures Inv(Next(w, s))
  {
    hide Matched, AnswersTo, Pipe, Flat, Honest;
    FailedMatches(w.conns);
  }

  lemma CancelKeepsInv(w: World)
    requires Inv(w) && w.phase.Awaiting?
    ensures Inv(Next(w, Cancel))
  {
    hide Matched, AnswersTo, Pipe, Flat, Honest;
    FreshPipe();
    MatchedMore(w.conns, w.history);
    FailedMatches(w.conns + [FRESH_CONN]);
    FlatFresh(w.conns);
  }

  lemma FailedMatches(conns: seq<Conn>)
    ensures forall id :: Matched(conns, Failed(id))
  {
  }

  lemma FlatFresh(conns: seq<Conn>)
    ensures Flat(conns + [FRESH_CONN]) == Flat(conns)
  {
    FreshPipe();
    assert (conns + [FRESH_CONN])[..|conns|] == conns;
  }

  lemma FreshPipe()
    ensures Pipe(FRESH_CONN) == [] && Honest(FRESH_CONN) && FRESH_CONN.taken == 0
  {
  }

  lemma NextKeepsInv(w: World, s: Step)
    requires Inv(w) && Enabled(w, s)
    ensures Inv(Next(w, s))
  {
    match s
    case Send(name) => SendKeepsInv(w, name);
    case Receive => ReceiveKeepsInv(w, s);
    case Misread => ReceiveKeepsInv(w, s);
    case Server(i, step) => ServerKeepsInv(w, i, step);
    case Cancel => CancelKeepsInv(w);
    case _ => ReturnKeepsInv(w, s);
  }

  function Run(w: World, steps: seq<Step>): World
    requires Possible(w, steps)
    decreases |steps|
  {
    if steps == [] then w else Run(Next(w, steps[0]), steps[1..])
  }

  predicate Possible(w: World, steps: seq<Step>)
    decreases |steps|
  {
    steps == [] || (Enabled(w, steps[0]) && Possible(Next(w, steps[0]), steps[1..]))
  }

  lemma {:induction false} RunKeepsInv(w: World, steps: seq<Step>)
    requires Inv(w) && Possible(w, steps)
    ensures Inv(Run(w, steps))
    decreases |steps|
  {
    hide Inv, Next, Enabled;
    if steps != [] {
      NextKeepsInv(w, steps[0]);
      RunKeepsInv(Next(w, steps[0]), steps[1..]);
    }
  }

  /** `proton_rpc_new`: one fresh connection, identifiers from 1. */
  const OPENED := World(1, Ready, [FRESH_CONN], true, [], [])

  lemma OpenedInv()
    ensures Inv(OPENED)
  {
    FreshPipe();
    FlatFresh([]);
    assert [] + [FRESH_CONN] == [FRESH_CONN];
  }

  /** Where in the order of writing a request of one connection stands. */
  lemma {:induction false} FlatAt(conns: seq<Conn>, i: nat, p: nat)
    requires i < |conns| && p < |Pipe(conns[i])|
    ensures |Flat(conns[..i])| + p < |Flat(conns[..i + 1])| <= |Flat(conns)|
    ensures Flat(conns)[|Flat(conns[..i])| + p] == Pipe(conns[i])[p]
    decreases |conns|
  {
    hide Pipe;
    var n := |conns| - 1;
    assert conns[..i + 1][..i] == conns[..i];
    if i < n {
      FlatAt(conns[..n], i, p);
      assert conns[..n][..i] == conns[..i] && conns[..n][..i + 1] == conns[..i + 1];
    } else {
      assert conns[..i + 1] == conns;
    }
  }

  lemma {:induction false} FlatGrows(conns: seq<Conn>, i: nat, j: nat)
    requires i <= j <= |conns|
    ensures |Flat(conns[..i])| <= |Flat(conns[..j])|
    decreases j
  {
    hide Pipe;
    if i < j {
      FlatGrows(conns, i, j - 1);
      assert conns[..j][..j - 1] == conns[..j - 1];
    }
  }

  lemma ServedInPipe(c: Conn, p: nat)
    requires p < |c.served|
    ensures p < |Pipe(c)| && Pipe(c)[p] == c.served[p].req
  {
    AnsweredAt(c.served, p);
  }

  /** Each request is handled at most once, on the one connection it was written to. */
  lemma HandledOnce(w: World, e: Exchange, e': Exchange)
    requires Inv(w) && TookPlace(w.conns, e) && TookPlace(w.conns, e') && e.req.id == e'.req.id
    ensures e == e' && e.req in w.sent
  {
    hide Pipe, Flat, Honest, Matched;
    var i :| 0 <= i < |w.conns| && e in w.conns[i].served;
    var j :| 0 <= j < |w.conns| && e' in w.conns[j].served;
    var p :| 0 <= p < |w.conns[i].served| && w.conns[i].served[p] == e;
    var q :| 0 <= q < |w.conns[j].served| && w.conns[j].served[q] == e';
    ServedInPipe(w.conns[i], p);
    ServedInPipe(w.conns[j], q);
    FlatAt(w.conns, i, p);
    FlatAt(w.conns, j, q);
    var at, at' := |Flat(w.conns[..i])| + p, |Flat(w.conns[..j])| + q;
    assert w.sent[at] == e.req && w.sent[at'] == e'.req;
    assert at == at';
    if i < j {
      FlatGrows(w.conns, i + 1, j);
      assert false;
    }
    if j < i {
      FlatGrows(w.conns, j + 1, i);
      assert false;
    }
  }

  /** `e` is what the server made of the request that this very call wrote. */
  ghost predicate OwnExchange(w: World, r: Return, e: Exchange) {
    TookPlace(w.conns, e) && e.req in w.sent && e.req.id == r.id
  }

  /**
   * In every run, with cancellations at any point, lost reconnections, unreadable
   * lines and the server still busy on abandoned connections: no two calls share
   * an identifier; the request a call wrote is handled at most once, under the
   * name the call sent; and a response that `call` returns tells what the handler
   * did with that very request.
   */
  lemma ResponsesMatchCalls(steps: seq<Step>)
    requires Possible(OPENED, steps)
    ensures var w := Run(OPENED, steps);
            && (forall i, j | 0 <= i < j < |w.history| :: w.history[i].id < w.history[j].id)
            && (forall r | r in w.history && r.Returned? :: exists e :: OwnExchange(w, r, e))
            && (forall r, e | r in w.history && r.Returned? && OwnExchange(w, r, e) ::
                  AnswersTo(r.response, e.req, e.handler))
            && (forall e, e' | TookPlace(w.conns, e) && TookPlace(w.conns, e') && e.req.id == e'.req.id :: e == e')
            && (forall a, b | a in w.sent && b in w.sent && a.id == b.id :: a == b)
  {
    hide Run, Possible, AnswersTo, Inv;
    OpenedInv();
    RunKeepsInv(OPENED, steps);
    RunEnds(Run(OPENED, steps));
  }

  lemma RunEnds(w: World)
    requires Inv(w)
    ensures (forall i, j | 0 <= i < j < |w.history| :: w.history[i].id < w.history[j].id)
    ensures (forall r | r in w.history && r.Returned? :: exists e :: OwnExchange(w, r, e))
    ensures (forall r, e | r in w.history && r.Returned? && OwnExchange(w, r, e) ::
               AnswersTo(r.response, e.req, e.handler))
    ensures (forall e, e' | TookPlace(w.conns, e) && TookPlace(w.conns, e') && e.req.id == e'.req.id :: e == e')
    ensures (forall a, b | a in w.sent && b in w.sent && a.id == b.id :: a == b)
  {
    hide AnswersTo, Pipe, Flat;
    forall e, e' | TookPlace(w.conns, e) && TookPlace(w.conns, e') && e.req.id == e'.req.id
      ensures e == e' && e.req in w.sent
    {
      HandledOnce(w, e, e');
    }
    forall r | r in w.history && r.Returned?
      ensures exists e :: OwnExchange(w, r, e) && e.response == r.response
    {
      assert Matched(w.conns, r);
      var e :| TookPlace(w.conns, e) && e.req.id == r.id && e.response == r.response;
      assert OwnExchange(w, r, e);
    }
  }

  /** What `call` gives its caller is an answer exactly if the handler produced a value, and then that value. */
  lemma CallAnswersIff(response: Response, req: Request, handler: Option<HandlerOutcome>)
    requires AnswersTo(response, req, handler)
    ensures response.error.None? <==> handler.Some? && handler.value.Value?
    ensures response.error.None? ==> response.result == Some(handler.value.result)
  {
    if response.result.Some? {
      assert handler == Some(Value(response.result.value));
    }
    if handler.Some? && handler.value.Value? {
      assert response.result == Some(handler.value.result);
    }
  }

  /** What happens to the read of one response. */
  datatype Reply = Arrives(response: Response) | Cancelled | Garbled | Eof | ReadError

  datatype CallResult = Answer(response: Response) | CallError

  /** The client's handle; `generation` counts the connections made. */
  class ProtonRpc {
    var nextId: nat
    var generation: nat
    var connected: bool

    constructor ()
      ensures nextId == 1 && generation == 0 && connected
    {
      nextId, generation, connected := 1, 0, true;
    }

    method Reconnect(succeeds: bool) returns (ok: bool)
      modifies this
      ensures ok == succeeds == connected && nextId == old(nextId)
      ensures generation == if succeeds then old(generation) + 1 else old(generation)
    {
      connected := false;
      if !succeeds {
        return false;
      }
      generation, connected := generation + 1, true;
      return true;
    }

    /**
     * A failed response, an unreadable line and a closed stream are all errors
     * to the caller. After a failed reconnect there is nothing to read from,
     * so every later call is an error and none reconnects.
     */
    method Call(sends: bool, reply: Reply, reconnects: bool) returns (r: CallResult)
      modifies this
      ensures nextId == old(nextId) + 1
      ensures r.Answer? <==> old(connected) && sends && reply.Arrives? && reply.response.error.None?
      ensures r.Answer? ==> r.response == reply.response
      ensures if old(connected) && sends && reply.Cancelled?
              then connected == reconnects && generation == old(generation) + (if reconnects then 1 else 0)
              else connected == old(connected) && generation == old(generation)
    {
      nextId := nextId + 1;
      if !sends {
        return CallError;
      }
      if !connected {
        return CallError;
      }
      match reply {
        case Cancelled =>
          var _ := Reconnect(reconnects);
          return CallError;
        case Arrives(response) =>
          return if response.error.Some? then CallError else Answer(response);
        case _ =>
          return CallError;
      }
    }
  }
}
