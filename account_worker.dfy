/**
  The per-account worker (src/account_worker.py): target resolution with a
  memoising cache, the rate-limit retry loop, copy and forward delivery,
  webhook gating, and the per-message dispatch.

  The Telegram client is a scripted oracle: class `Client` answers each call
  with the next `Outcome` of its script and records the call. `asyncio.sleep`
  and the webhook POST are recorded effects (`sleeps`, `posts`).

  The handler's methods (`ResolveTarget`, `ResilientCall`, `SendCopySingle`,
  `SendForwardSingle`, `Deliver`, `Dispatch`, `OnNewMessage`) are specified
  by a step function over `World`, the part of the state the worker can
  observe or affect: `(result, State()) == Step(old(State()), ...)`.
  `Start` is specified by `ResolveSources` over the client's script,
  `MaybeWebhook` by the new list of posts, `Client.Call` by the next answer
  and the recorded call, and the constructors by the initial state. The
  properties of the source are lemmas about the step functions.
 */
module Worker {
  import opened Wrappers
  import opened Utils
  import opened Models
  import Router

  /** An entity or message object handed back by the client; opaque here. */
  type Handle = nat

  datatype Media = Media(id: nat)

  /** The parts of an incoming message the handler reads: the text body
      (`msg.message`), the media payload, and the outgoing flag `msg.out`. */
  datatype Message = Message(id: nat, body: Option<string>, media: Option<Media>, out: bool)

  /** The exceptions a client call can raise. `Disconnected` is what the
      scripted client raises once its script is used up; `NotStarted` is the
      `assert self.client is not None` failing. A missing `seconds`
      attribute reads as 0, which the source treats alike. */
  datatype Error =
    | FloodWait(seconds: int)
    | SlowModeWait(seconds: int)
    | RetryAfter(seconds: int)
    | OtherError(name: string)
    | Disconnected
    | NotStarted

  datatype Outcome = Returned(handle: Handle) | Raised(error: Error)

  /** The three errors `_resilient_call` waits out. */
  predicate RateLimited(o: Outcome) {
    o.Raised? && (o.error.FloodWait? || o.error.SlowModeWait? || o.error.RetryAfter?)
  }

  /** The client operations the worker uses: `get_entity`, `send_file`,
      `send_message` and `forward_messages`. */
  datatype Request =
    | GetEntity(ref: Ref)
    | SendFile(dest: Handle, file: Media, caption: string)
    | SendMessage(dest: Handle, text: string)
    | ForwardMessages(dest: Handle, msg: Message)

  datatype Payload = Payload(accountName: string, routeName: string, text: string)

  /** One `post_json(wh, payload)` call. */
  datatype Post = Post(hook: WebhookConfig, payload: Payload)

  /** The target cache, the client's remaining answers and the calls made,
      and the recorded sleeps and webhook posts. */
  datatype World = World(
    cache: map<Ref, Handle>,
    script: seq<Outcome>,
    calls: seq<Request>,
    sleeps: seq<int>,
    posts: seq<Post>)

  /** What the handler did with one message; stands for its log line. */
  datatype Handled = SkippedOwn | Delivered(routeName: string, mode: string) | Failed(error: Error)

  /** Destination reference, mode, route name and matched flag of a message. */
  datatype Decision = Decision(destRef: Ref, mode: string, routeName: string, matched: bool)

  // ---------------------------------------------------------------------
  // The client oracle

  function NextOutcome(script: seq<Outcome>): Outcome {
    if script == [] then Raised(Disconnected) else script[0]
  }

  function Drop(script: seq<Outcome>, k: nat): seq<Outcome> {
    if k <= |script| then script[k..] else []
  }

  /** One client call: the next scripted answer, and the call recorded. */
  function CallStep(w: World, req: Request): (Outcome, World) {
    (NextOutcome(w.script), w.(script := Drop(w.script, 1), calls := w.calls + [req]))
  }

  class Client {
    var script: seq<Outcome>
    ghost var calls: seq<Request>

    constructor(script: seq<Outcome>)
      ensures this.script == script && calls == []
    {
      this.script := script;
      calls := [];
    }

    method Call(req: Request) returns (o: Outcome)
      modifies this
      ensures o == NextOutcome(old(script))
      ensures script == Drop(old(script), 1) && calls == old(calls) + [req]
    {
      if script == [] {
        o := Raised(Disconnected);
      } else {
        o := script[0];
        script := script[1..];
      }
      calls := calls + [req];
    }
  }

  // ---------------------------------------------------------------------
  // `_resilient_call`

  /** `int(getattr(e, "seconds", 0)) or 1`. */
  function Wait(seconds: int): int {
    if seconds == 0 then 1 else seconds
  }

  /** The sleep that follows one rate-limit error: `wait + 1`. */
  function SleepFor(o: Outcome): int
    requires RateLimited(o)
  {
    Wait(o.error.seconds) + 1
  }

  /** The retry loop: call, and while the answer is a rate-limit error,
      record its sleep and call again with the same request. */
  function RetryStep(w: World, req: Request): (p: (Outcome, World))
    ensures !RateLimited(p.0)
    ensures p.1.cache == w.cache && p.1.posts == w.posts
    ensures |w.calls| < |p.1.calls|
    decreases |w.script|
  {
    var (o, w1) := CallStep(w, req);
    if RateLimited(o) then RetryStep(w1.(sleeps := w1.sleeps + [SleepFor(o)]), req)
    else (o, w1)
  }

  /** The number of rate-limit errors at the head of a script. */
  function LeadingRateLimits(script: seq<Outcome>): (n: nat)
    ensures n <= |script|
    ensures forall i :: 0 <= i < n ==> RateLimited(script[i])
    ensures n < |script| ==> !RateLimited(script[n])
  {
    if script == [] || !RateLimited(script[0]) then 0
    else 1 + LeadingRateLimits(script[1..])
  }

  /** The sleeps owed for a run of rate-limit errors, one per error. */
  function Sleeps(errors: seq<Outcome>): (d: seq<int>)
    requires forall i :: 0 <= i < |errors| ==> RateLimited(errors[i])
  {
    if errors == [] then [] else [SleepFor(errors[0])] + Sleeps(errors[1..])
  }

  function Repeat(req: Request, k: nat): (rs: seq<Request>) {
    seq(k, _ => req)
  }

  /** The retry loop in closed form: with `n` rate-limit errors at the head
      of the script, it makes `n + 1` identical calls, sleeps `wait + 1`
      once per error, and returns the first answer that is not a rate-limit
      error (or `Disconnected` when the script runs out). */
  lemma {:induction false} RetryClosedForm(w: World, req: Request)
    ensures var n := LeadingRateLimits(w.script);
            RetryStep(w, req) == (
              NextOutcome(w.script[n..]),
              w.(script := Drop(w.script, n + 1),
                 calls := w.calls + Repeat(req, n + 1),
                 sleeps := w.sleeps + Sleeps(w.script[..n])))
    decreases |w.script|
  {
    var n := LeadingRateLimits(w.script);
    var (o, w1) := CallStep(w, req);
    if RateLimited(o) {
      var w2 := w1.(sleeps := w1.sleeps + [SleepFor(o)]);
      assert RetryStep(w, req) == RetryStep(w2, req);
      RetryClosedForm(w2, req);
      assert LeadingRateLimits(w2.script) == n - 1;
      RetryShift(w, req, n);
    } else {
      assert n == 0;
      assert w.script[0..] == w.script;
      assert Repeat(req, 1) == [req];
      assert Sleeps(w.script[..0]) == [];
      assert w.sleeps + [] == w.sleeps;
    }
  }

  /** One rate-limited call, then `n - 1` more in the closed form, is the
      closed form for `n`. */
  lemma RetryShift(w: World, req: Request, n: nat)
    requires 0 < n == LeadingRateLimits(w.script)
    ensures var w2 := w.(script := Drop(w.script, 1), calls := w.calls + [req],
                         sleeps := w.sleeps + [SleepFor(w.script[0])]);
            && w2.script[n - 1..] == w.script[n..]
            && Drop(w2.script, n) == Drop(w.script, n + 1)
            && w2.calls + Repeat(req, n) == w.calls + Repeat(req, n + 1)
            && w2.sleeps + Sleeps(w2.script[..n - 1]) == w.sleeps + Sleeps(w.script[..n])
  {
    var s := w.script;
    assert s[..n][1..] == s[1..][..n - 1];
    assert Sleeps(s[..n]) == [SleepFor(s[0])] + Sleeps(s[1..][..n - 1]);
    assert [req] + Repeat(req, n) == Repeat(req, n + 1);
  }

  /** A rate-limit error never comes out of `_resilient_call`; the number of
      sleeps is one less than the number of calls. */
  lemma {:induction false} RetryNeverSurfacesRateLimit(w: World, req: Request)
    ensures !RateLimited(RetryStep(w, req).0)
    ensures |RetryStep(w, req).1.calls| - |w.calls| == |RetryStep(w, req).1.sleeps| - |w.sleeps| + 1
  {
    RetryClosedForm(w, req);
    var n := LeadingRateLimits(w.script);
    SleepsLength(w.script[..n]);
  }

  lemma {:induction false} SleepsLength(errors: seq<Outcome>)
    requires forall i :: 0 <= i < |errors| ==> RateLimited(errors[i])
    ensures |Sleeps(errors)| == |errors|
  {
    if errors != [] {
      SleepsLength(errors[1..]);
    }
  }

  /** Any other answer, error or not, is passed through unchanged after
      exactly one call and no sleep. */
  lemma RetryPassesOtherOutcomes(w: World, req: Request)
    requires !RateLimited(NextOutcome(w.script))
    ensures RetryStep(w, req) == (NextOutcome(w.script), w.(script := Drop(w.script, 1), calls := w.calls + [req]))
  {
  }

  // ---------------------------------------------------------------------
  // `resolve_target`

  /** A cached reference is answered from the cache; otherwise `get_entity`
      is asked for the normalised reference and a handle it returns is
      stored under the original reference. */
  function ResolveStep(w: World, target: Ref): (p: (Outcome, World))
    ensures p.1.sleeps == w.sleeps && p.1.posts == w.posts
    ensures p.0.Returned? ==> p.1.cache == w.cache[target := p.0.handle]
    ensures p.0.Raised? ==> p.1.cache == w.cache && target !in w.cache
  {
    if target in w.cache then (Returned(w.cache[target]), w)
    else
      var (o, w1) := CallStep(w, GetEntity(NormalizeChatRef(target)));
      if o.Returned? then (o, w1.(cache := w1.cache[target := o.handle])) else (o, w1)
  }

  /** Cache hit: the cached handle, and nothing else happens. Cache miss:
      exactly one `get_entity` on the normalised reference; a returned handle
      is cached under the original key and no other entry changes; an error
      leaves the cache alone. */
  lemma {:induction false} ResolveCaches(w: World, target: Ref)
    ensures target in w.cache ==> ResolveStep(w, target) == (Returned(w.cache[target]), w)
    ensures target !in w.cache ==>
              var (o, w1) := ResolveStep(w, target);
              && o == NextOutcome(w.script)
              && w1.calls == w.calls + [GetEntity(NormalizeChatRef(target))]
              && w1.script == Drop(w.script, 1)
              && w1.sleeps == w.sleeps && w1.posts == w.posts
              && (o.Returned? ==> target in w1.cache && w1.cache[target] == o.handle)
              && (forall k :: k != target ==> (k in w1.cache <==> k in w.cache))
              && (forall k :: k in w.cache ==> w1.cache[k] == w.cache[k])
              && (o.Raised? ==> w1.cache == w.cache)
  {
  }

  /** A cache miss answered with a handle: the world after it, in full. */
  lemma ResolveMissReturns(w: World, target: Ref, h: Handle)
    requires target !in w.cache && w.script != [] && w.script[0] == Returned(h)
    ensures ResolveStep(w, target)
            == (Returned(h), w.(cache := w.cache[target := h], script := w.script[1..],
                                calls := w.calls + [GetEntity(NormalizeChatRef(target))]))
  {
  }

  /** Resolving twice: the second time is a cache hit with the same handle
      and no further call. */
  lemma {:induction false} ResolveTwiceIsCached(w: World, target: Ref)
    requires ResolveStep(w, target).0.Returned?
    ensures var (o, w1) := ResolveStep(w, target);
            ResolveStep(w1, target) == (o, w1)
  {
  }

  // ---------------------------------------------------------------------
  // `_send_copy_single` and `_send_forward_single`

  /** The copy-mode choice: media goes out through `send_file` with the
      primary text as caption, otherwise non-empty text through
      `send_message`, and anything else is skipped. */
  function CopyRequest(dest: Handle, msg: Message): (q: Option<Request>)
    ensures q.None? <==> msg.media.None? && MessagePrimaryText(msg.body) == ""
    ensures msg.media.Some? ==> q == Some(SendFile(dest, msg.media.value, MessagePrimaryText(msg.body)))
    ensures msg.media.None? && q.Some? ==> q == Some(SendMessage(dest, MessagePrimaryText(msg.body)))
  {
    var text := MessagePrimaryText(msg.body);
    if msg.media.Some? then Some(SendFile(dest, msg.media.value, text))
    else if text != "" then Some(SendMessage(dest, text))
    else None
  }

  /** The copy send: the copy request, retried, or nothing. */
  function CopyStep(w: World, dest: Handle, msg: Message): (p: (Option<Outcome>, World))
    ensures p.0.None? <==> CopyRequest(dest, msg).None?
    ensures p.0.None? ==> p.1 == w
    ensures p.0.Some? ==> !RateLimited(p.0.value)
    ensures p.1.cache == w.cache && p.1.posts == w.posts
  {
    match CopyRequest(dest, msg)
    case None => (None, w)
    case Some(req) =>
      var (o, w1) := RetryStep(w, req);
      (Some(o), w1)
  }

  /** The forward send: one `forward_messages`, retried. */
  function ForwardStep(w: World, dest: Handle, msg: Message): (p: (Outcome, World))
    ensures !RateLimited(p.0)
    ensures p.1.cache == w.cache && p.1.posts == w.posts
    ensures |w.calls| < |p.1.calls|
  {
    RetryStep(w, ForwardMessages(dest, msg))
  }

  /** Copy mode skips a message with neither media nor text without any
      transport call; anything else is sent, and the send is retried. */
  lemma {:induction false} CopySkipsEmpty(w: World, dest: Handle, msg: Message)
    ensures CopyStep(w, dest, msg).0.None? <==> msg.media.None? && MessagePrimaryText(msg.body) == ""
    ensures CopyStep(w, dest, msg).0.None? ==> CopyStep(w, dest, msg).1 == w
  {
  }

  // ---------------------------------------------------------------------
  // `_maybe_webhook`

  /** The webhook gating: no post without a webhook, none for a matched
      route missing from a non-empty allow-list, none for unmatched traffic
      when `send_unmatched` is off; otherwise one post of
      `{account_name, route_name, text}`. */
  function WebhookPost(cfg: AccountConfig, routeName: string, text: string, matched: bool): (p: Option<Post>)
    ensures p.None? <==>
              || cfg.webhook.None?
              || (matched && cfg.webhook.value.routes != [] && routeName !in cfg.webhook.value.routes)
              || (!matched && !cfg.webhook.value.sendUnmatched)
    ensures p.Some? ==> p.value == Post(cfg.webhook.value, Payload(cfg.name, routeName, text))
  {
    match cfg.webhook
    case None => None
    case Some(wh) =>
      if matched && wh.routes != [] && routeName !in wh.routes then None
      else if !matched && !wh.sendUnmatched then None
      else Some(Post(wh, Payload(cfg.name, routeName, text)))
  }

  function PostsFor(p: Option<Post>): seq<Post> {
    if p.Some? then [p.value] else []
  }

  // ---------------------------------------------------------------------
  // `_on_new_message`

  /** The routing decision: the first matching route supplies target, mode
      and name with `matched`; otherwise the default route's target and mode
      under the name "default". */
  function Decide(cfg: AccountConfig, text: string): (d: Decision)
    ensures d.matched ==>
              exists i :: && Router.FirstMatchAt(cfg.routes, text, i)
                          && d == Decision(cfg.routes[i].target, cfg.routes[i].mode, cfg.routes[i].name, true)
    ensures !d.matched ==>
              && (forall j :: 0 <= j < |cfg.routes| ==> !Matches(cfg.routes[j], text))
              && d == Decision(cfg.defaultRoute.defaultTarget, cfg.defaultRoute.defaultMode, "default", false)
  {
    var (route, isDefault) := Router.Pick(cfg.routes, text);
    if !isDefault && route.Some? then
      Decision(route.value.target, route.value.mode, route.value.name, true)
    else
      Decision(cfg.defaultRoute.defaultTarget, cfg.defaultRoute.defaultMode, "default", false)
  }

  /** The transport request a mode sends: "forward" forwards, any other
      mode copies (and an empty copy sends nothing). */
  function SendRequest(mode: string, dest: Handle, msg: Message): Option<Request> {
    if mode == "forward" then Some(ForwardMessages(dest, msg)) else CopyRequest(dest, msg)
  }

  /** The send of the handler, by mode, with the error it raises, if any. */
  function SendStep(w: World, mode: string, dest: Handle, msg: Message): (p: (Option<Error>, World))
    ensures p.0.Some? ==> SendRequest(mode, dest, msg).Some? && !RateLimited(Raised(p.0.value))
    ensures p.1.cache == w.cache && p.1.posts == w.posts
  {
    if mode == "forward" then
      var (o, w1) := ForwardStep(w, dest, msg);
      (if o.Raised? then Some(o.error) else None, w1)
    else
      var (o, w1) := CopyStep(w, dest, msg);
      (if o.Some? && o.value.Raised? then Some(o.value.error) else None, w1)
  }

  /** The send touches only the client and the sleeps: the chosen request
      is made `n + 1` times for `n` leading rate-limit errors, or no call
      is made when there is nothing to send. The send fails exactly when
      the first answer past the rate-limit errors is an error, and then
      with that error. */
  lemma {:induction false} SendStepEffects(w: World, mode: string, dest: Handle, msg: Message)
    ensures var (e, w1) := SendStep(w, mode, dest, msg);
            var n := LeadingRateLimits(w.script);
            && w1.cache == w.cache && w1.posts == w.posts
            && (SendRequest(mode, dest, msg).None? ==> e.None? && w1 == w)
            && (SendRequest(mode, dest, msg).Some? ==>
                  && w1.calls == w.calls + Repeat(SendRequest(mode, dest, msg).value, n + 1)
                  && (e.Some? <==> NextOutcome(w.script[n..]).Raised?)
                  && (e.Some? ==> e.value == NextOutcome(w.script[n..]).error))
  {
    SendStepIsRetry(w, mode, dest, msg);
    match SendRequest(mode, dest, msg)
    case None =>
    case Some(req) =>
      RetryClosedForm(w, req);
  }

  /** The send is the retry loop on the mode's request, or nothing; its
      error is the error the retry loop returns. */
  lemma SendStepIsRetry(w: World, mode: string, dest: Handle, msg: Message)
    ensures SendRequest(mode, dest, msg).None? ==> SendStep(w, mode, dest, msg) == (None, w)
    ensures SendRequest(mode, dest, msg).Some? ==>
              var o := RetryStep(w, SendRequest(mode, dest, msg).value).0;
              && SendStep(w, mode, dest, msg).1 == RetryStep(w, SendRequest(mode, dest, msg).value).1
              && SendStep(w, mode, dest, msg).0 == (if o.Raised? then Some(o.error) else None)
  {
  }

  /** The end of a successful delivery: the webhook, then the log line. */
  function Notify(cfg: AccountConfig, w: World, d: Decision, text: string): (p: (Handled, World))
    ensures p.0 == Delivered(d.routeName, d.mode)
    ensures p.1 == w.(posts := p.1.posts) && w.posts <= p.1.posts
    ensures |p.1.posts| == |w.posts| <==> WebhookPost(cfg, d.routeName, text, d.matched).None?
    ensures |p.1.posts| == |w.posts| + 1 ==> p.1.posts[|w.posts|].payload == Payload(cfg.name, d.routeName, text)
    ensures WebhookPost(cfg, d.routeName, text, d.matched).Some? ==>
              p.1.posts == w.posts + [WebhookPost(cfg, d.routeName, text, d.matched).value]
  {
    (Delivered(d.routeName, d.mode), w.(posts := w.posts + PostsFor(WebhookPost(cfg, d.routeName, text, d.matched))))
  }

  /** Resolve, send, notify, for a message whose route is decided. */
  function DeliverStep(cfg: AccountConfig, w: World, d: Decision, text: string, msg: Message): (p: (Handled, World))
    ensures p.0.Delivered? || p.0.Failed?
    ensures p.0.Delivered? ==> p.0 == Delivered(d.routeName, d.mode)
    ensures p.0.Delivered? ==> d.destRef in p.1.cache
    ensures p.0.Failed? && d.destRef in w.cache ==> !RateLimited(Raised(p.0.error))
  {
    var (r, w1) := ResolveStep(w, d.destRef);
    if r.Raised? then (Failed(r.error), w1)
    else
      var (e, w2) := SendStep(w1, d.mode, r.handle, msg);
      if e.Some? then (Failed(e.value), w2) else Notify(cfg, w2, d, text)
  }

  /** The handler: skip own messages; decide; resolve; forward or copy;
      notify. Any error ends the handling of the message. */
  function HandleStep(cfg: AccountConfig, w: World, msg: Message): (p: (Handled, World))
    ensures p.0.SkippedOwn? <==> cfg.skipOwn && msg.out
    ensures p.0.SkippedOwn? ==> p.1 == w
    ensures p.0.Delivered? && p.0.routeName != "default" ==>
              exists i :: Router.FirstMatchAt(cfg.routes, MessagePrimaryText(msg.body), i) && cfg.routes[i].name == p.0.routeName
  {
    if cfg.skipOwn && msg.out then (SkippedOwn, w)
    else
      var text := MessagePrimaryText(msg.body);
      var d := Decide(cfg, text);
      var r := DeliverStep(cfg, w, d, text, msg);
      assert r.0.Delivered? || r.0.Failed?;
      assert r.0.Delivered? ==> r.0.routeName == d.routeName;
      r
  }

  /** The message is delivered exactly when resolution returned a handle
      and the send raised nothing; a failure carries the error of the step
      that raised it and stops there. The webhook is posted only after
      resolution and sending succeeded, and then exactly as gated; a failed
      message posts nothing. Calls are only
      ever appended, and resolution comes first: a target not in the cache
      costs one `get_entity` on its normalised reference before anything
      is sent. */
  lemma {:induction false} DeliverOrder(cfg: AccountConfig, w: World, d: Decision, text: string, msg: Message)
    ensures var (h, w1) := DeliverStep(cfg, w, d, text, msg);
            var (r, wr) := ResolveStep(w, d.destRef);
            && (h.Delivered? <==> r.Returned? && SendStep(wr, d.mode, r.handle, msg).0.None?)
            && (r.Raised? ==> h == Failed(r.error) && w1 == wr)
            && (r.Returned? && SendStep(wr, d.mode, r.handle, msg).0.Some? ==>
                  (h, w1) == (Failed(SendStep(wr, d.mode, r.handle, msg).0.value), SendStep(wr, d.mode, r.handle, msg).1))
            && (h.Delivered? ==> w1.posts == w.posts + PostsFor(WebhookPost(cfg, d.routeName, text, d.matched)))
            && (!h.Delivered? ==> w1.posts == w.posts)
            && |w.calls| <= |w1.calls| && w1.calls[..|w.calls|] == w.calls
            && (d.destRef !in w.cache ==>
                  |w1.calls| > |w.calls| && w1.calls[|w.calls|] == GetEntity(NormalizeChatRef(d.destRef)))
  {
    var (r, wr) := ResolveStep(w, d.destRef);
    if r.Returned? {
      var (e, ws) := SendStep(wr, d.mode, r.handle, msg);
      SendStepEffects(wr, d.mode, r.handle, msg);
      assert DeliverStep(cfg, w, d, text, msg)
             == if e.Some? then (Failed(e.value), ws) else Notify(cfg, ws, d, text);
    } else {
      assert DeliverStep(cfg, w, d, text, msg) == (Failed(r.error), wr);
    }
  }

  /** With the destination already cached, nothing is resolved: "forward"
      forwards the message, any other mode sends the copy request, each
      retried past rate limits; an empty copy sends nothing and still
      counts as delivered. */
  lemma {:induction false} DeliverCachedSendsPerMode(cfg: AccountConfig, w: World, d: Decision, text: string, msg: Message)
    requires d.destRef in w.cache
    ensures var dest := w.cache[d.destRef];
            var n := LeadingRateLimits(w.script);
            var (h, w1) := DeliverStep(cfg, w, d, text, msg);
            && (d.mode == "forward" ==> w1.calls == w.calls + Repeat(ForwardMessages(dest, msg), n + 1))
            && (d.mode != "forward" && CopyRequest(dest, msg).Some? ==>
                  w1.calls == w.calls + Repeat(CopyRequest(dest, msg).value, n + 1))
            && (d.mode != "forward" && CopyRequest(dest, msg).None? ==> (h, w1) == Notify(cfg, w, d, text))
  {
    SendStepEffects(w, d.mode, w.cache[d.destRef], msg);
  }

  /** Own outgoing messages are skipped when `skip_own` is set: nothing is
      resolved, sent or notified. Any other message is delivered under the
      routing decision for its primary text. */
  lemma HandleSkipsOwn(cfg: AccountConfig, w: World, msg: Message)
    ensures cfg.skipOwn && msg.out ==> HandleStep(cfg, w, msg) == (SkippedOwn, w)
    ensures !(cfg.skipOwn && msg.out) ==>
              var text := MessagePrimaryText(msg.body);
              HandleStep(cfg, w, msg) == DeliverStep(cfg, w, Decide(cfg, text), text, msg)
  {
  }

  /** An unmatched message does not stop at an absent default target: the
      handler still asks `get_entity` for `None` (the early return in the
      source sits inside a string literal), and when that call raises, no
      "unmatched" webhook is posted even with `send_unmatched` on. */
  lemma {:induction false} HandleUnmatchedWithoutDefaultStillResolves(cfg: AccountConfig, w: World, msg: Message, e: Error)
    requires !(cfg.skipOwn && msg.out)
    requires forall j :: 0 <= j < |cfg.routes| ==> !Matches(cfg.routes[j], MessagePrimaryText(msg.body))
    requires cfg.defaultRoute.defaultTarget == NoneRef && NoneRef !in w.cache
    requires w.script != [] && w.script[0] == Raised(e)
    ensures HandleStep(cfg, w, msg) ==
              (Failed(e), w.(script := w.script[1..], calls := w.calls + [GetEntity(NoneRef)]))
  {
    var text := MessagePrimaryText(msg.body);
    Router.PickDefaultIffNoMatch(cfg.routes, text);
    var d := Decision(NoneRef, cfg.defaultRoute.defaultMode, "default", false);
    assert Decide(cfg, text) == d;
    HandleSkipsOwn(cfg, w, msg);
    DeliverResolveFails(cfg, w, d, text, msg, e);
  }

  /** A destination that `get_entity` rejects ends the delivery with that
      error after the one call: nothing is sent, cached or posted. */
  lemma DeliverResolveFails(cfg: AccountConfig, w: World, d: Decision, text: string, msg: Message, e: Error)
    requires d.destRef !in w.cache && w.script != [] && w.script[0] == Raised(e)
    ensures DeliverStep(cfg, w, d, text, msg)
            == (Failed(e), w.(script := w.script[1..], calls := w.calls + [GetEntity(NormalizeChatRef(d.destRef))]))
  {
  }

  // ---------------------------------------------------------------------
  // `start`: resolving the configured sources

  /** `get_entity` on each normalised source in order, stopping at the
      first error; the handles resolved before it are kept. */
  function ResolveSources(sources: seq<Ref>, script: seq<Outcome>): (r: (Option<Error>, seq<Handle>))
    ensures r.0.None? ==> |r.1| == |sources|
    ensures r.0.Some? ==> |r.1| < |sources|
    decreases sources
  {
    if sources == [] then (None, [])
    else match NextOutcome(script)
      case Raised(e) => (Some(e), [])
      case Returned(h) =>
        var (err, hs) := ResolveSources(sources[1..], Drop(script, 1));
        (err, [h] + hs)
  }

  /** The `i`-th resolved source is the `i`-th answer of the client, and
      the error, if any, is the answer right after the last handle. */
  lemma {:induction false} ResolveSourcesAnswers(sources: seq<Ref>, script: seq<Outcome>)
    ensures var r := ResolveSources(sources, script);
            && (forall i :: 0 <= i < |r.1| ==> NextOutcome(Drop(script, i)) == Returned(r.1[i]))
            && (r.0.Some? ==> NextOutcome(Drop(script, |r.1|)) == Raised(r.0.value))
    decreases sources
  {
    assert Drop(script, 0) == script;
    if sources != [] && NextOutcome(script).Returned? {
      ResolveSourcesAnswers(sources[1..], Drop(script, 1));
      DropAfterOne(script);
    }
  }

  /** Dropping one answer and then `k` is dropping `k + 1`. */
  lemma DropAfterOne(script: seq<Outcome>)
    ensures forall k: nat :: Drop(Drop(script, 1), k) == Drop(script, k + 1)
  {
  }

  /** The handles resolved earlier, put in front of a later result. */
  function Prepend(hs: seq<Handle>, r: (Option<Error>, seq<Handle>)): (Option<Error>, seq<Handle>) {
    (r.0, hs + r.1)
  }

  function SourceRequests(sources: seq<Ref>): seq<Request> {
    seq(|sources|, i requires 0 <= i < |sources| => GetEntity(NormalizeChatRef(sources[i])))
  }

  /** The loop invariant of `start` carried over one source: an error
      ends the result with the handles so far, a handle joins them. */
  lemma SourcesStep(sources: seq<Ref>, i: nat, script0: seq<Outcome>, hs: seq<Handle>, script: seq<Outcome>)
    requires i < |sources|
    requires ResolveSources(sources, script0) == Prepend(hs, ResolveSources(sources[i..], script))
    ensures NextOutcome(script).Raised? ==> ResolveSources(sources, script0) == (Some(NextOutcome(script).error), hs)
    ensures NextOutcome(script).Returned? ==>
              ResolveSources(sources, script0)
              == Prepend(hs + [NextOutcome(script).handle], ResolveSources(sources[i + 1..], Drop(script, 1)))
    ensures SourceRequests(sources[..i + 1]) == SourceRequests(sources[..i]) + [GetEntity(NormalizeChatRef(sources[i]))]
  {
    ResolveSourcesAt(sources, i, script);
    assert hs + [] == hs;
    if NextOutcome(script).Returned? {
      var rest := ResolveSources(sources[i + 1..], Drop(script, 1));
      assert hs + ([NextOutcome(script).handle] + rest.1) == hs + [NextOutcome(script).handle] + rest.1;
    }
  }

  lemma DropOnce(script: seq<Outcome>, i: nat)
    ensures Drop(Drop(script, i), 1) == Drop(script, i + 1)
  {
  }

  /** One step of the sources loop: the source at `i` is resolved with the
      next answer, and the rest follows from the remaining script. */
  lemma ResolveSourcesAt(sources: seq<Ref>, i: nat, script: seq<Outcome>)
    requires i < |sources|
    ensures var o := NextOutcome(script);
            ResolveSources(sources[i..], script)
            == if o.Raised? then (Some(o.error), [])
               else Prepend([o.handle], ResolveSources(sources[i + 1..], Drop(script, 1)))
    ensures SourceRequests(sources[..i + 1]) == SourceRequests(sources[..i]) + [GetEntity(NormalizeChatRef(sources[i]))]
  {
    assert sources[i..][1..] == sources[i + 1..];
  }

  // ---------------------------------------------------------------------
  // The worker

  class AccountWorker {
    const cfg: AccountConfig
    var client: Client?
    var sourceEntities: seq<Handle>
    var targetCache: map<Ref, Handle>
    ghost var sleeps: seq<int>
    ghost var posts: seq<Post>

    ghost function State(): World
      reads this, client
      requires client != null
    {
      World(targetCache, client.script, client.calls, sleeps, posts)
    }

    constructor(cfg: AccountConfig)
      ensures this.cfg == cfg && client == null
      ensures sourceEntities == [] && targetCache == map[] && sleeps == [] && posts == []
    {
      this.cfg := cfg;
      client := null;
      sourceEntities := [];
      targetCache := map[];
      sleeps := [];
      posts := [];
    }

    /** `start`, after login: installs the client and resolves every source
      in order; an error stops the loop and is returned (raised, in the
      source), leaving the handles resolved so far. */
    method Start(tg: Client) returns (err: Option<Error>)
      modifies this`client, this`sourceEntities, tg
      ensures client == tg
      ensures (err, sourceEntities) == ResolveSources(cfg.sources, old(tg.script))
      ensures var k := |sourceEntities| + (if err.Some? then 1 else 0);
              k <= |cfg.sources|
              && tg.script == Drop(old(tg.script), k)
              && tg.calls == old(tg.calls) + SourceRequests(cfg.sources[..k])
    {
      client := tg;
      sourceEntities := [];
      err := None;
      ghost var script0, calls0 := tg.script, tg.calls;
      var i := 0;
      assert cfg.sources[0..] == cfg.sources;
      assert ResolveSources(cfg.sources, script0).1 == [] + ResolveSources(cfg.sources, script0).1;
      while i < |cfg.sources|
        invariant client == tg
        invariant 0 <= i <= |cfg.sources| && |sourceEntities| == i
        invariant ResolveSources(cfg.sources, script0)
                  == Prepend(sourceEntities, ResolveSources(cfg.sources[i..], tg.script))
        invariant tg.script == Drop(script0, i)
        invariant tg.calls == calls0 + SourceRequests(cfg.sources[..i])
      {
        SourcesStep(cfg.sources, i, script0, sourceEntities, tg.script);
        DropOnce(script0, i);
        var o := tg.Call(GetEntity(NormalizeChatRef(cfg.sources[i])));
        if o.Raised? {
          err := Some(o.error);
          assert (err, sourceEntities) == ResolveSources(cfg.sources, old(tg.script));
          assert tg.script == Drop(script0, i + 1);
          return;
        }
        sourceEntities := sourceEntities + [o.handle];
        i := i + 1;
      }
      assert cfg.sources[i..] == [];
      assert sourceEntities + [] == sourceEntities;
    }

    /** `resolve_target`. */
    method ResolveTarget(target: Ref) returns (r: Outcome)
      requires client != null
      modifies this`targetCache, client
      ensures (r, State()) == ResolveStep(old(State()), target)
    {
      if target in targetCache {
        return Returned(targetCache[target]);
      }
      r := client.Call(GetEntity(NormalizeChatRef(target)));
      if r.Returned? {
        targetCache := targetCache[target := r.handle];
      }
    }

    /** `_resilient_call`: retries the same request for as long as the
      client answers with a rate-limit error, sleeping `wait + 1` each time. */
    method ResilientCall(req: Request) returns (o: Outcome)
      requires client != null
      modifies this`sleeps, client
      ensures (o, State()) == RetryStep(old(State()), req)
    {
      while true
        invariant RetryStep(State(), req) == RetryStep(old(State()), req)
        decreases |client.script|
      {
        o := client.Call(req);
        if !RateLimited(o) {
          return;
        }
        sleeps := sleeps + [SleepFor(o)];
      }
    }

    /** `_send_copy_single`. */
    method SendCopySingle(dest: Handle, msg: Message) returns (r: Option<Outcome>)
      requires client != null
      modifies this`sleeps, client
      ensures (r, State()) == CopyStep(old(State()), dest, msg)
    {
      var text := MessagePrimaryText(msg.body);
      if msg.media.Some? {
        var o := ResilientCall(SendFile(dest, msg.media.value, text));
        r := Some(o);
      } else if text != "" {
        var o := ResilientCall(SendMessage(dest, text));
        r := Some(o);
      } else {
        r := None;
      }
    }

    /** `_send_forward_single`. */
    method SendForwardSingle(dest: Handle, msg: Message) returns (o: Outcome)
      requires client != null
      modifies this`sleeps, client
      ensures (o, State()) == ForwardStep(old(State()), dest, msg)
    {
      o := ResilientCall(ForwardMessages(dest, msg));
    }

    /** `_maybe_webhook`. */
    method MaybeWebhook(routeName: string, text: string, matched: bool)
      modifies this`posts
      ensures posts == old(posts) + PostsFor(WebhookPost(cfg, routeName, text, matched))
    {
      if cfg.webhook.None? {
        return;
      }
      var wh := cfg.webhook.value;
      if matched {
        if wh.routes != [] && routeName !in wh.routes {
          return;
        }
      } else {
        if !wh.sendUnmatched {
          return;
        }
      }
      posts := posts + [Post(wh, Payload(cfg.name, routeName, text))];
    }

    /** `_on_new_message`: every error is caught and ends the handling of
      this message only. */
    method OnNewMessage(msg: Message) returns (h: Handled)
      modifies this`targetCache, this`sleeps, this`posts, client
      ensures client == old(client)
      ensures cfg.skipOwn && msg.out ==>
                h == SkippedOwn && unchanged(this) && (client != null ==> unchanged(client))
      ensures !(cfg.skipOwn && msg.out) && client == null ==> h == Failed(NotStarted) && unchanged(this)
      ensures client != null ==> (h, State()) == HandleStep(cfg, old(State()), msg)
    {
      if cfg.skipOwn && msg.out {
        return SkippedOwn;
      }
      if client == null {
        return Failed(NotStarted);
      }
      h := Dispatch(msg);
    }

    /** The routing decision for the message's primary text, then delivery. */
    method Dispatch(msg: Message) returns (h: Handled)
      requires client != null && !(cfg.skipOwn && msg.out)
      modifies this`targetCache, this`sleeps, this`posts, client
      ensures (h, State()) == HandleStep(cfg, old(State()), msg)
    {
      var text := MessagePrimaryText(msg.body);
      var d := Decide(cfg, text);
      HandleSkipsOwn(cfg, State(), msg);
      h := Deliver(d, text, msg);
    }

    /** Resolve, send by mode, then the webhook: the part of
      `_on_new_message` after the routing decision. */
    method Deliver(d: Decision, text: string, msg: Message) returns (h: Handled)
      requires client != null
      modifies this`targetCache, this`sleeps, this`posts, client
      ensures (h, State()) == DeliverStep(cfg, old(State()), d, text, msg)
    {
      var dest := ResolveTarget(d.destRef);
      if dest.Raised? {
        return Failed(dest.error);
      }
      ghost var w1 := State();
      if d.mode == "forward" {
        var o := SendForwardSingle(dest.handle, msg);
        if o.Raised? {
          return Failed(o.error);
        }
      } else {
        var o := SendCopySingle(dest.handle, msg);
        if o.Some? && o.value.Raised? {
          return Failed(o.value.error);
        }
      }
      assert SendStep(w1, d.mode, dest.handle, msg) == (None, State());
      MaybeWebhook(d.routeName, text, d.matched);
      h := Delivered(d.routeName, d.mode);
    }
  }
}
