/** The server as a whole: one shared user store and the session store,
    which maps each browser session to its `userPhone` field. Every request
    arrives on one session and is handled by the route functions. */
module Server {
  import opened Wrappers
  import opened Users
  import opened Upstream
  import opened Routes

  type SessionId = nat

  /** The user store and every session's `userPhone`; a session without the
      field has no entry. */
  datatype State = State(store: Store, sessions: map<SessionId, string>)

  datatype Request =
    | LoginRequest(phone: BodyField)
    | RegisterRequest(phone: BodyField)
    | SubscribeRequest
    | LogoutRequest
    | GenerateRequest(prompt: BodyField, model: BodyField, upstream: UpstreamResult)

  /** A request made from the browser session `sid`. */
  datatype Event = Event(sid: SessionId, request: Request)

  /** The state after a request, the reply, and what was sent upstream. */
  datatype Outcome = Outcome(state: State, reply: Reply, sent: Option<UpstreamRequest>)

  function SessionOf(st: State, sid: SessionId): Session {
    if sid in st.sessions then Some(st.sessions[sid]) else None
  }

  /** Writes a handler's session back into the session store. */
  function Bind(sessions: map<SessionId, string>, sid: SessionId, session: Session): map<SessionId, string> {
    match session
    case None => sessions - {sid}
    case Some(phone) => sessions[sid := phone]
  }

  /** Records are never removed and a position's phone never changes: the
      old phones are a prefix of the new ones. */
  ghost predicate StoreEvolves(before: Store, after: Store) {
    |before| <= |after| && Phones(after)[..|before|] == Phones(before)
  }

  /** Dispatches one request to its route handler. Only the requesting
      session changes, only POST /generate talks to the upstream, and the
      store only grows or is updated in place. */
  function Handle(st: State, e: Event): (o: Outcome)
    ensures forall sid :: sid != e.sid ==> SessionOf(o.state, sid) == SessionOf(st, sid)
    ensures o.sent.Some? ==> e.request.GenerateRequest?
    ensures StoreEvolves(st.store, o.state.store)
    ensures |o.state.store| != |st.store| ==>
              && e.request.RegisterRequest?
              && SubmittedPhone(e.request.phone).Some?
              && Phones(o.state.store) == Phones(st.store) + [SubmittedPhone(e.request.phone).value]
    ensures !e.request.SubscribeRequest? ==> o.state.store[..|st.store|] == st.store
  {
    var session := SessionOf(st, e.sid);
    var x :=
      match e.request
      case LoginRequest(phone) => Exchange(Login(st.store, session, phone), None)
      case RegisterRequest(phone) => Exchange(Register(st.store, session, phone), None)
      case SubscribeRequest => Exchange(Subscribe(st.store, session), None)
      case LogoutRequest => Exchange(Logout(st.store, session), None)
      case GenerateRequest(prompt, model, upstream) => Generate(st.store, session, prompt, model, upstream);
    Outcome(State(x.step.store, Bind(st.sessions, e.sid, x.step.session)), x.step.reply, x.sent)
  }

  /** The state after a sequence of requests. */
  function Run(st: State, events: seq<Event>): State
    decreases |events|
  {
    if |events| == 0 then st else Run(Handle(st, events[0]).state, events[1..])
  }

  /** Phones are unique and every session's phone has a record. */
  ghost predicate Valid(st: State) {
    && UniquePhones(st.store)
    && forall sid :: sid in st.sessions ==> st.sessions[sid] in Phones(st.store)
  }

  /** Every request keeps the state valid. */
  lemma HandlePreservesValid(st: State, e: Event)
    requires Valid(st)
    ensures Valid(Handle(st, e).state)
  {
  }

  /** Validity holds after any sequence of requests from a valid start: in
      particular phones stay unique, since only POST /register inserts and it
      checks first. */
  lemma {:induction false} RunPreservesValid(st: State, events: seq<Event>)
    requires Valid(st)
    ensures Valid(Run(st, events))
    decreases |events|
  {
    if |events| > 0 {
      HandlePreservesValid(st, events[0]);
      RunPreservesValid(Handle(st, events[0]).state, events[1..]);
    }
  }

  /** The server starts with no sessions; any store without duplicate phones
      is then a valid start, the empty store among them. */
  lemma InitialStateValid(store: Store)
    requires UniquePhones(store)
    ensures Valid(State(store, map[]))
  {
  }

  /** In a valid state POST /generate never reaches the `subscribed` read on a
      missing record. */
  lemma ValidNeverRejects(st: State, e: Event)
    requires Valid(st)
    ensures Handle(st, e).reply != HandlerRejected
  {
  }

  /** After GET /logout the session is refused: POST /subscribe redirects to
      the login form without writing, and POST /generate answers 401 without
      contacting the upstream. */
  lemma LogoutSignsOut(st: State, sid: SessionId, prompt: BodyField, model: BodyField, upstream: UpstreamResult)
    ensures var out := Handle(st, Event(sid, LogoutRequest)).state;
            && Handle(out, Event(sid, SubscribeRequest)).state == out
            && Handle(out, Event(sid, SubscribeRequest)).reply == RedirectTo(LoginForm)
            && Handle(out, Event(sid, GenerateRequest(prompt, model, upstream))).reply == Unauthorized
            && Handle(out, Event(sid, GenerateRequest(prompt, model, upstream))).sent == None
  {
  }

  /** Over any sequence of requests, records are never removed and a
      position's phone never changes. */
  lemma {:induction false} RunKeepsRecords(st: State, events: seq<Event>)
    ensures StoreEvolves(st.store, Run(st, events).store)
    decreases |events|
  {
    if |events| > 0 {
      var next := Handle(st, events[0]).state;
      RunKeepsRecords(next, events[1..]);
      var last := Run(next, events[1..]).store;
      assert Phones(last)[..|st.store|] == Phones(last)[..|next.store|][..|st.store|];
    }
  }

  /** Every phone present after a sequence of requests was either present at
      the start or submitted, after trimming, to POST /register in one of
      those requests. */
  lemma {:induction false} OnlyRegisterAddsPhones(st: State, events: seq<Event>, phone: string)
    requires phone in Phones(Run(st, events).store) && phone !in Phones(st.store)
    ensures exists i :: 0 <= i < |events| && events[i].request.RegisterRequest?
                        && SubmittedPhone(events[i].request.phone) == Some(phone)
    decreases |events|
  {
    assert |events| > 0;
    var next := Handle(st, events[0]).state;
    if phone in Phones(next.store) {
      assert |next.store| != |st.store|;
      assert events[0].request.RegisterRequest?;
    } else {
      OnlyRegisterAddsPhones(next, events[1..], phone);
      var i :| 0 <= i < |events[1..]| && events[1..][i].request.RegisterRequest?
               && SubmittedPhone(events[1..][i].request.phone) == Some(phone);
      assert events[i + 1] == events[1..][i];
    }
  }

  /** Without POST /subscribe requests the records present at the start are
      left exactly as they were: no other route changes a subscription. */
  lemma {:induction false} OnlySubscribeChangesRecords(st: State, events: seq<Event>)
    requires forall i :: 0 <= i < |events| ==> !events[i].request.SubscribeRequest?
    ensures |st.store| <= |Run(st, events).store|
    ensures Run(st, events).store[..|st.store|] == st.store
    decreases |events|
  {
    if |events| > 0 {
      var next := Handle(st, events[0]).state;
      OnlySubscribeChangesRecords(next, events[1..]);
      var last := Run(next, events[1..]).store;
      assert last[..|st.store|] == last[..|next.store|][..|st.store|];
    }
  }

  /** An even number of POST /subscribe requests from one session leaves the
      whole server state as it was. */
  lemma {:induction false} SubscribeEvenTimes(st: State, sid: SessionId, n: nat)
    ensures Run(st, seq(2 * n, _ => Event(sid, SubscribeRequest))) == st
    decreases n
  {
    if n > 0 {
      var e := Event(sid, SubscribeRequest);
      var events := seq(2 * n, _ => e);
      var once := Handle(st, e).state;
      SubscribeTwice(st.store, SessionOf(st, sid));
      assert Bind(st.sessions, sid, SessionOf(st, sid)) == st.sessions;
      assert Handle(once, e).state == st;
      assert events[1..][1..] == seq(2 * (n - 1), _ => e);
      SubscribeEvenTimes(st, sid, n - 1);
    }
  }
}
