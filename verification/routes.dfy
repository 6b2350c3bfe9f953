/** The POST /login, POST /register, POST /subscribe, GET /logout and
    POST /generate handlers of server.js, each a pure function from the user
    store, the caller's session field `userPhone` and the request body to the
    new store, the new session field and the reply. */
module Routes {
  import opened Wrappers
  import opened Text
  import opened Users
  import opened Catalog
  import opened Upstream

  /** One field of the parsed request body, as JavaScript sees it: absent
      (`undefined`), a string, or some other value (number, boolean, null,
      array or object) of which only its truthiness matters here. */
  datatype BodyField = Missing | Str(text: string) | NonText(truthy: bool)

  /** JavaScript truthiness of a body field. */
  predicate Truthy(f: BodyField) {
    match f
    case Missing => false
    case Str(s) => s != ""
    case NonText(t) => t
  }

  /** `req.session.userPhone`: `None` when the field is unset. */
  type Session = Option<string>

  /** `if (!req.session.userPhone)` fails: the field is set and non-empty. */
  predicate SignedIn(session: Session) {
    session.Some? && session.value != ""
  }

  /** Where a redirect points. */
  datatype Location = Home | LoginForm | SubscribeForm | RegisterForm(prefillPhone: string)

  /** The payload of a JSON reply. */
  datatype JsonBody =
    | ErrorBody(error: string)
    | ErrorDetails(error: string, details: string)
    | ResponseBody(response: string)

  /** What a handler answers. `TypeErrorThrown` is a synchronous TypeError
      raised inside a handler, which the framework turns into its default
      error reply; `HandlerRejected` is a TypeError inside the async
      /generate handler, which rejects the handler's promise instead of
      producing a reply. */
  datatype Reply =
    | LoginPage(error: string)
    | RegisterPage(prefillPhone: string, error: string)
    | RedirectTo(location: Location)
    | JsonReply(status: nat, body: JsonBody)
    | TypeErrorThrown
    | HandlerRejected

  const EnterPhoneMessage := "Please enter a phone number."
  const UserExistsMessage := "User already exists. Please log in."

  const Unauthorized := JsonReply(401, ErrorBody("Unauthorized"))
  const MissingFields := JsonReply(400, ErrorBody("Missing prompt or model"))
  const UnknownModel := JsonReply(400, ErrorBody("Unknown model"))
  const SubscriptionRequired := JsonReply(403, ErrorBody("Model requires subscription"))

  /** The state a handler leaves behind and its reply. */
  datatype Step = Step(store: Store, session: Session, reply: Reply)

  /** `(req.body.phone || '').trim()`: a falsy field becomes the empty string,
      a string is trimmed, and any other truthy value has no `trim` method,
      so the call throws (`None`). */
  function SubmittedPhone(f: BodyField): (r: Option<string>)
    ensures r.None? <==> f.NonText? && f.truthy
    ensures r.Some? ==> IsTrimOf(if f.Str? then f.text else "", r.value)
  {
    match f
    case Missing => Some(Trim(""))
    case Str(s) => Some(Trim(s))
    case NonText(t) => if t then None else Some(Trim(""))
  }

  /** POST /login: binds the session to a registered phone; never writes the
      store. An unknown phone is sent on to the registration form with the
      session left as it was. */
  function Login(store: Store, session: Session, phoneField: BodyField): (r: Step)
    ensures r.store == store
    ensures SubmittedPhone(phoneField).None? ==> r.session == session && r.reply == TypeErrorThrown
    ensures SubmittedPhone(phoneField) == Some("") ==>
              r.session == session && r.reply == LoginPage(EnterPhoneMessage)
    ensures SubmittedPhone(phoneField).Some? && SubmittedPhone(phoneField).value != "" ==>
              var phone := SubmittedPhone(phoneField).value;
              if phone in Phones(store) then r.session == Some(phone) && r.reply == RedirectTo(Home)
              else r.session == session && r.reply == RedirectTo(RegisterForm(phone))
  {
    match SubmittedPhone(phoneField)
    case None => Step(store, session, TypeErrorThrown)
    case Some(phone) =>
      if phone == "" then Step(store, session, LoginPage(EnterPhoneMessage))
      else
        match FindUserByPhone(store, phone)
        case None => Step(store, session, RedirectTo(RegisterForm(phone)))
        case Some(user) => Step(store, Some(user.phone), RedirectTo(Home))
  }

  /** POST /register: creates an unsubscribed record for a phone not yet in
      the store and signs the session in as it. An empty phone or a phone
      already present changes neither store nor session; this check is the
      only thing keeping phones unique. */
  function Register(store: Store, session: Session, phoneField: BodyField): (r: Step)
    ensures SubmittedPhone(phoneField).None? ==> r == Step(store, session, TypeErrorThrown)
    ensures SubmittedPhone(phoneField) == Some("") ==>
              r == Step(store, session, RegisterPage("", EnterPhoneMessage))
    ensures SubmittedPhone(phoneField).Some? && SubmittedPhone(phoneField).value != "" ==>
              var phone := SubmittedPhone(phoneField).value;
              if phone in Phones(store) then r == Step(store, session, RegisterPage(phone, UserExistsMessage))
              else && Phones(r.store) == Phones(store) + [phone]
                   && r.store[..|store|] == store
                   && r.store[|store|] == Account(phone, false)
                   && r.session == Some(phone)
                   && r.reply == RedirectTo(Home)
    ensures UniquePhones(store) ==> UniquePhones(r.store)
  {
    match SubmittedPhone(phoneField)
    case None => Step(store, session, TypeErrorThrown)
    case Some(phone) =>
      if phone == "" then Step(store, session, RegisterPage("", EnterPhoneMessage))
      else if FindUserByPhone(store, phone).Some? then
        Step(store, session, RegisterPage(phone, UserExistsMessage))
      else
        var (store', user) := CreateUser(store, phone);
        Step(store', Some(user.phone), RedirectTo(Home))
  }

  /** POST /subscribe: flips the `subscribed` flag of the signed-in user's
      record and of nothing else. Without a session nothing changes; a
      session whose phone has no record changes nothing either. */
  function Subscribe(store: Store, session: Session): (r: Step)
    ensures r.session == session && |r.store| == |store| && Phones(r.store) == Phones(store)
    ensures !SignedIn(session) ==> r.store == store && r.reply == RedirectTo(LoginForm)
    ensures SignedIn(session) ==> r.reply == RedirectTo(SubscribeForm)
    ensures SignedIn(session) && session.value !in Phones(store) ==> r.store == store
    ensures SignedIn(session) && FirstIndex(store, session.value).Some? ==>
              var i := FirstIndex(store, session.value).value;
              && r.store[i].subscribed == !store[i].subscribed
              && forall j :: 0 <= j < |store| && j != i ==> r.store[j] == store[j]
  {
    if !SignedIn(session) then Step(store, session, RedirectTo(LoginForm))
    else
      match FindUserByPhone(store, session.value)
      case None => Step(store, session, RedirectTo(SubscribeForm))
      case Some(user) =>
        Step(UpdateUser(store, user.(subscribed := !user.subscribed)), session, RedirectTo(SubscribeForm))
  }

  /** Toggling twice restores the store exactly. */
  lemma SubscribeTwice(store: Store, session: Session)
    ensures Subscribe(Subscribe(store, session).store, session).store == store
  {
  }

  /** Registering the same phone twice: the first attempt creates exactly
      one record, the second is refused and leaves the store alone, whatever
      sessions the two requests come from. */
  lemma RegisterTwice(store: Store, first: Session, second: Session, phoneField: BodyField)
    requires SubmittedPhone(phoneField).Some? && SubmittedPhone(phoneField).value != ""
    requires SubmittedPhone(phoneField).value !in Phones(store)
    ensures var once := Register(store, first, phoneField).store;
            var phone := SubmittedPhone(phoneField).value;
            && multiset(Phones(once))[phone] == 1
            && Register(once, second, phoneField) == Step(once, second, RegisterPage(phone, UserExistsMessage))
  {
  }

  /** GET /logout: destroys the session, leaving the store alone. */
  function Logout(store: Store, session: Session): (r: Step)
    ensures r.store == store && !SignedIn(r.session) && r.reply == RedirectTo(LoginForm)
  {
    Step(store, None, RedirectTo(LoginForm))
  }

  /** The request body `callLLM` sends upstream, `{model, prompt, stream: false}`. */
  datatype UpstreamRequest = UpstreamRequest(model: string, prompt: BodyField)

  /** The requested model is a string naming a catalogue entry. */
  predicate KnownModel(model: BodyField) {
    model.Str? && FindModel(model.text).Some?
  }

  /** The access policy: a non-premium model is open to every signed-in
      session; a premium one needs a record for the session's phone whose
      first match is subscribed. */
  predicate Entitled(store: Store, phone: string, m: ModelDescriptor) {
    !m.premium || (FindUserByPhone(store, phone).Some? && FindUserByPhone(store, phone).value.subscribed)
  }

  /** Every check of POST /generate passes, so the upstream is called. */
  predicate ChecksPass(store: Store, session: Session, prompt: BodyField, model: BodyField) {
    && SignedIn(session)
    && Truthy(prompt) && Truthy(model)
    && KnownModel(model)
    && Entitled(store, session.value, FindModel(model.text).value)
  }

  /** The decision POST /generate takes before any upstream traffic: refuse
      with a reply, or forward a request. */
  datatype Gate = Refuse(reply: Reply) | Forward(request: UpstreamRequest)

  /** The checks of POST /generate, in the order the handler makes them:
      401 without a session, 400 for a missing prompt or model, 400 for a
      model outside the catalogue, then the premium check. A session whose
      phone has no record passes for a free model but, for a premium one,
      reads `subscribed` of `undefined` and rejects the handler. */
  function CheckGenerate(store: Store, session: Session, prompt: BodyField, model: BodyField): (g: Gate)
    ensures g.Forward? <==> ChecksPass(store, session, prompt, model)
    ensures g.Forward? ==> g.request == UpstreamRequest(model.text, prompt)
    ensures !SignedIn(session) ==> g == Refuse(Unauthorized)
    ensures SignedIn(session) && !(Truthy(prompt) && Truthy(model)) ==> g == Refuse(MissingFields)
    ensures SignedIn(session) && Truthy(prompt) && Truthy(model) && !KnownModel(model) ==>
              g == Refuse(UnknownModel)
    ensures g == Refuse(HandlerRejected) ==> SignedIn(session) && session.value !in Phones(store)
    ensures SignedIn(session) && Truthy(prompt) && KnownModel(model) && FindModel(model.text).value.premium ==>
              (session.value !in Phones(store) ==> g == Refuse(HandlerRejected))
              && (session.value in Phones(store) && !FindUserByPhone(store, session.value).value.subscribed ==>
                    g == Refuse(SubscriptionRequired))
  {
    if !SignedIn(session) then Refuse(Unauthorized)
    else if !Truthy(prompt) || !Truthy(model) then Refuse(MissingFields)
    else if !model.Str? then Refuse(UnknownModel)
    else
      match FindModel(model.text)
      case None => Refuse(UnknownModel)
      case Some(selected) =>
        var user := FindUserByPhone(store, session.value);
        if selected.premium && user.None? then Refuse(HandlerRejected)
        else if selected.premium && !user.value.subscribed then Refuse(SubscriptionRequired)
        else Forward(UpstreamRequest(model.text, prompt))
  }

  /** The reply to a forwarded request: 500 with the error message when the
      upstream request fails, else 200 with the normalised reply text. */
  function Answer(upstream: UpstreamResult): (reply: Reply)
    ensures upstream.Errored? ==>
              reply == JsonReply(500, ErrorDetails("Failed to generate response", upstream.message))
    ensures upstream.Answered? ==>
              reply.JsonReply? && reply.status == 200 && reply.body.ResponseBody?
              && (HasStringResponse(upstream.parsed) ==> reply.body.response == upstream.parsed.responseField.value)
              && (!HasStringResponse(upstream.parsed) ==> reply.body.response == upstream.body)
  {
    match upstream
    case Errored(message) => JsonReply(500, ErrorDetails("Failed to generate response", message))
    case Answered(body, parsed) => JsonReply(200, ResponseBody(NormaliseReply(body, parsed)))
  }

  /** One POST /generate exchange: the step taken, and the request sent
      upstream if one was sent. */
  datatype Exchange = Exchange(step: Step, sent: Option<UpstreamRequest>)

  /** POST /generate with the upstream's behaviour supplied as `upstream`.
      The upstream is contacted exactly when every check passes; store and
      session are never touched. */
  function Generate(store: Store, session: Session, prompt: BodyField, model: BodyField,
                    upstream: UpstreamResult): (r: Exchange)
    ensures r.step.store == store && r.step.session == session
    ensures r.sent.Some? <==> ChecksPass(store, session, prompt, model)
    ensures r.sent.Some? ==>
              r.sent.value == UpstreamRequest(model.text, prompt) && r.step.reply == Answer(upstream)
    ensures r.sent.None? ==> r.step.reply == CheckGenerate(store, session, prompt, model).reply
  {
    match CheckGenerate(store, session, prompt, model)
    case Refuse(reply) => Exchange(Step(store, session, reply), None)
    case Forward(request) => Exchange(Step(store, session, Answer(upstream)), Some(request))
  }

  /** The access matrix for a signed-in user with a record and a non-empty
      prompt: the free model is always served, the premium one exactly when
      subscribed (403 otherwise), and any other id is refused with 400 for
      both subscription states. */
  lemma AccessMatrix(store: Store, user: Account, prompt: string, id: string)
    requires user.phone != "" && FindUserByPhone(store, user.phone) == Some(user) && prompt != ""
    ensures CheckGenerate(store, Some(user.phone), Str(prompt), Str("tinyllama")).Forward?
    ensures CheckGenerate(store, Some(user.phone), Str(prompt), Str("deepseek-r1:1.5b")).Forward?
            <==> user.subscribed
    ensures !user.subscribed ==>
              CheckGenerate(store, Some(user.phone), Str(prompt), Str("deepseek-r1:1.5b"))
              == Refuse(SubscriptionRequired)
    ensures id != "" && id != "tinyllama" && id != "deepseek-r1:1.5b" ==>
              CheckGenerate(store, Some(user.phone), Str(prompt), Str(id)) == Refuse(UnknownModel)
  {
  }

  /** A session whose phone has no record: the free model is still served,
      while the premium model makes the handler reject. */
  lemma StaleSession(store: Store, phone: string, prompt: string)
    requires phone != "" && phone !in Phones(store) && prompt != ""
    ensures CheckGenerate(store, Some(phone), Str(prompt), Str("tinyllama")).Forward?
    ensures CheckGenerate(store, Some(phone), Str(prompt), Str("deepseek-r1:1.5b")) == Refuse(HandlerRejected)
  {
  }
}
