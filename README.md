# telethon-forwarder: routing and delivery core in Dafny

This project models the core of telethon-forwarder. The forwarder listens to Telegram
source chats on behalf of one or more accounts. It routes every incoming message by
keyword rules to a destination chat, then copies or forwards it there, and optionally
posts a webhook notification about the routing decision.

The model is split into six modules:

- `Utils` (`utils.dfy`) covers `src/utils.py`. `str.strip()` is written out over Python's
  whitespace set. It also holds chat-reference normalisation (`normalize_chat_ref`) and
  the primary text of a message (`message_primary_text`).
- `Models` (`models.dfy`) covers `src/models.py`. It has the configuration records as
  datatypes and keyword matching: `_as_groups`, `_hits_substrings_group`, `_eval_hits`
  and `Route.matches`. These are pure functions, each with the property it promises,
  and lemmas relating them.
- `Router` (`router.dfy`) covers `Router.pick` in `src/router.py`. It is a recursive
  first-match scan, specified by "earliest matching position".
- `Worker` (`account_worker.dfy`) covers `src/account_worker.py`.
  - `AccountWorker` is a class. Its target cache, source list, client field, sleeps and
    webhook posts are fields that its methods update.
  - The Telegram client is a scripted oracle: class `Client` answers each call with the
    next `Outcome` of a finite script and records the request.
  - The handler's methods (`ResolveTarget`, `ResilientCall`, `SendCopySingle`,
    `SendForwardSingle`, `Deliver`, `Dispatch`, `OnNewMessage`) are proved against a
    step function over `World` (cache, remaining script, calls made, sleeps, posts), in
    the form `(result, State()) == Step(old(State()), ...)`. `Start` is proved against
    `ResolveSources` over the client's script. `MaybeWebhook` states the new list of
    posts, and the constructor states the initial state.
  - The properties of the source are proved as lemmas about those step functions: the
    cache behaviour, the retry loop in closed form, the copy/forward choice, the webhook
    gating, and the resolve → send → notify order. That order has both directions: a
    message counts as delivered, and is notified, exactly when resolution returned a
    handle and the send raised nothing.
- `Scenarios` (`scenarios.dfy`) works through two messages end to end on one concrete
  account.
- `Wrappers` (`wrappers.dfy`) holds `Option`.

On one point the model follows the code as written rather than its evident intent. In
`_on_new_message`, an early return for an unmatched message with no default target sits
inside a string literal (src/account_worker.py:148-154), so it never runs. That
disabled block shows what was meant: post an "unmatched" webhook and deliver nothing.
It is a plan rather than a working alternative. As written, the call passes `matched`
twice, once by position (in the place of `msg`) and once by keyword, so re-enabled it
would raise `TypeError`, which the handler's `except` (src/account_worker.py:175) would
catch. It would also post under the name "unmatched", not "default".
The live handler instead calls `resolve_target(None)`, and `normalize_chat_ref` returns
`None` unchanged. The handler then goes on to send, and notifies only if both steps
succeed.
`Worker.HandleUnmatchedWithoutDefaultStillResolves` states the behaviour as written:
a rejected `get_entity(None)` ends the handling, and no "unmatched" webhook is posted.
`Scenarios.GreetingWithoutDefaultPostsNothing` shows it on a concrete account.

## Model

| member | source | states |
|---|---|---|
| Utils.Strip | src/utils.py:10 | `strip()`: the result has no whitespace at either end, and it is the input with only whitespace cut from the front and from the back. |
| Utils.StripUnique | src/utils.py:10 | That specification of `strip()` has exactly one answer. Any slice with non-blank ends that sits between two whitespace runs of the input equals `Strip` of the input. |
| Utils.StripStripped | src/utils.py:10 | A string with no whitespace at either end is left unchanged by `strip()`. |
| Utils.StripIdempotent | src/utils.py:19 | Stripping twice gives the same result as stripping once. |
| Utils.DropPrefixes | src/utils.py:11-14 | The two prefix cuts leave a suffix of the input. It is shorter by 0, 1, `len("https://t.me/")` or one more than that. |
| Utils.NormalizeChatRef | src/utils.py:8-15 | Integer references and `None` are returned unchanged. A string becomes a suffix of its stripped form, shorter by 0, 1, 13 or 14 characters. |
| Utils.NormalizeStripped | src/utils.py:10-14 | On a string that is already stripped, normalisation is only the two prefix cuts. |
| Utils.NormalizeWithoutPrefix | src/utils.py:10-15 | A string that carries neither prefix after stripping normalises to just its stripped form. |
| Utils.NormalizeLinkThenSigil | src/utils.py:11-14 | The link prefix is removed before the `@` check: `https://t.me/@x` becomes `x`. |
| Utils.NormalizeSigilThenLink | src/utils.py:11-14 | `@https://t.me/x` becomes `https://t.me/x`: only the `@` is removed. |
| Utils.NormalizeOneLinkPrefix | src/utils.py:11-12 | Only one `https://t.me/` is removed. |
| Utils.NormalizeOneSigil | src/utils.py:13-14 | Only one `@` is removed. |
| Utils.MessagePrimaryText | src/utils.py:18-19 | A `None` body gives `""`. Any other body gives its strip, a whitespace-trimmed slice no longer than the body. Stripping the result again changes nothing. |
| Models.ContainsIff | src/models.py:38 | `k in t` holds exactly when `k` occurs in `t` at some offset. |
| Models.ContainsOccurs | src/models.py:38 | A positive `k in t` has an offset where `k` occurs. |
| Models.OccursAtContains | src/models.py:38 | An occurrence at any offset makes `k in t` true. |
| Models.AsGroups | src/models.py:23-33 | There are no groups exactly when the keyword list is empty. A flat list is one group holding all the keywords. A grouped list is taken as it is. |
| Models.Hits | src/models.py:35-38 | The hit vector has one entry per keyword. Entry `i` tells whether keyword `i` occurs in the text, both lowercased unless `case_sensitive` is set. |
| Models.All | src/models.py:43 | `all(hits)`: every entry is true. |
| Models.Any | src/models.py:43 | `any(hits)`: some entry is true. |
| Models.EvalHits | src/models.py:40-43 | An empty vector fails. Otherwise "all" needs every hit, and any other mode needs one. |
| Models.AllGroupsPass | src/models.py:55-59 | The group loop succeeds exactly when every group passes. |
| Models.Matches | src/models.py:45-59 | Empty text never matches, and no groups never matches. Otherwise a route matches exactly when every group's hits pass. |
| Models.FlatIsOneGroup | src/models.py:29-33 | Flat `[a, b, ...]` and grouped `[[a, b, ...]]` match the same texts, for every mode and case setting. |
| Models.CaseInsensitiveIgnoresTextCase | src/models.py:36-37 | Without `case_sensitive`, two texts that agree after lowercasing are matched alike by every route. |
| Models.GroupedAnyIsAndOfOrs | src/models.py:31-32 | Grouped `[[a, b], [c]]` in "any" mode matches exactly when the text is non-empty and contains (a or b) and c. |
| Models.FlatAllNeedsBoth | src/models.py:33 | Flat `[a, b]` in "all" mode matches exactly when the text is non-empty and contains both a and b. |
| Router.Pick | src/router.py:10-14 | The flag is set exactly when no route is returned. A returned route is in the list, matches, and no earlier route matches. No route is returned only when none matches. |
| Router.PickReturnsFirstMatch | src/router.py:11-13 | The earliest matching route is the one returned, with flag false. |
| Router.PickPrefersEarlier | src/router.py:11-13 | When routes `i < j` both match, the returned route sits at position `i` or earlier. |
| Router.PickDefaultIffNoMatch | src/router.py:11-14 | `(None, True)` is returned exactly when no route matches. With no routes at all, that is always the result. |
| Worker.RetryStep | src/account_worker.py:63-79 | The retry loop never returns a rate-limit error, makes at least one call, and changes neither the cache nor the posts. |
| Worker.LeadingRateLimits | src/account_worker.py:65-79 | Counts the rate-limit errors at the head of the script: all of them are rate limits, and the next answer is not. |
| Worker.RetryClosedForm | src/account_worker.py:63-79 | With `n` leading rate-limit errors, `_resilient_call` makes `n + 1` identical calls. It sleeps `(seconds or 1) + 1` once per error, in order, and returns the first answer that is not a rate limit. |
| Worker.RetryNeverSurfacesRateLimit | src/account_worker.py:65-79 | A rate-limit error never comes out of the retry loop. There is exactly one sleep fewer than calls. |
| Worker.RetryPassesOtherOutcomes | src/account_worker.py:65-67 | A result or any other error passes through unchanged after one call and no sleep. |
| Worker.ResolveStep | src/account_worker.py:54-61 | Resolution never sleeps or posts. A returned handle is the cache entry for the target afterwards, with every other entry unchanged. An error leaves the cache as it was, and happens only on a cache miss. |
| Worker.ResolveCaches | src/account_worker.py:54-61 | A cache hit returns the cached value with no call. A miss makes one `get_entity` on the normalised reference and stores a returned handle under the original key. No other entry changes. |
| Worker.ResolveMissReturns | src/account_worker.py:58-61 | A miss answered with a handle leaves the world as stated: one call made, the handle cached, nothing else changed. |
| Worker.ResolveTwiceIsCached | src/account_worker.py:56-57 | Resolving the same target again after a success is a cache hit with the same handle and no call. |
| Worker.CopyRequest | src/account_worker.py:86-94 | Media present: `send_file` with the primary text as caption. Otherwise non-empty text goes through `send_message`. Otherwise nothing is sent. |
| Worker.CopyStep | src/account_worker.py:81-94 | Copy sends nothing exactly when there is no copy request, and then the world is unchanged. Whatever it sends returns no rate-limit error. The cache and posts do not change. |
| Worker.ForwardStep | src/account_worker.py:96-99 | Forwarding returns no rate-limit error and makes at least one call. The cache and posts do not change. |
| Worker.CopySkipsEmpty | src/account_worker.py:88-94 | Copy makes no call exactly for a message with neither media nor text, and then the world is unchanged. |
| Worker.WebhookPost | src/account_worker.py:101-127 | No post without a webhook, none for a matched route missing from a non-empty allow-list, and none for unmatched traffic when `send_unmatched` is off. Otherwise exactly one post of `{account_name, route_name, text}`. |
| Worker.Decide | src/account_worker.py:138-157 | A matched message takes target, mode and name from the first matching route, with `matched` true. Otherwise no route matches, and the default target and mode are used under the name "default", with `matched` false. |
| Worker.SendStep | src/account_worker.py:161-164 | A send error happens only when something was sent, and it is never a rate-limit error. The cache and posts do not change. |
| Worker.SendStepIsRetry | src/account_worker.py:161-164 | The send is the retry loop on the mode's request: forward for "forward", the copy request otherwise. Its error is the error the loop returns. With nothing to copy, nothing happens. |
| Worker.SendStepEffects | src/account_worker.py:161-164 | The send changes neither the cache nor the posts. It makes the mode's request `n + 1` times for `n` leading rate-limit errors. It fails exactly when the first answer after those errors is an error, and then with that error. |
| Worker.Notify | src/account_worker.py:166-174 | The message counts as delivered under its route name and mode. Only the posts change. They grow by none exactly when the webhook gating says no. Otherwise they grow by exactly the gated post, which carries the account name, route name and text. |
| Worker.DeliverStep | src/account_worker.py:159-166 | Delivery ends delivered under the decision's route name and mode, or failed. After a delivery the target is cached. With the target already cached, a failure is never a rate-limit error. |
| Worker.HandleStep | src/account_worker.py:129-176 | A message is skipped exactly when it is an own message and `skip_own` is set, and then nothing changes. A delivery under a name other than "default" is under the name of the first route that matches the primary text. |
| Worker.DeliverResolveFails | src/account_worker.py:159 | A destination that `get_entity` rejects ends the handling after that one call: nothing is sent, cached or posted. |
| Worker.DeliverOrder | src/account_worker.py:159-166 | The message is delivered exactly when resolution returned a handle and the send raised nothing. A resolve error ends the handling with that error and the state after resolving. A send error ends it with that error and the state after sending. The webhook is posted, exactly as gated, only on delivery; a failed message posts nothing. Resolution comes first, and calls are only appended. |
| Worker.DeliverCachedSendsPerMode | src/account_worker.py:161-166 | With the target cached: "forward" forwards, and any other mode sends the copy request, each retried past rate limits. An empty copy still counts as delivered and notifies. |
| Worker.HandleSkipsOwn | src/account_worker.py:133-139 | An own outgoing message with `skip_own` set is skipped with no effect. Any other message is delivered under the decision for its primary text. |
| Worker.HandleUnmatchedWithoutDefaultStillResolves | src/account_worker.py:146-159 | An unmatched message with no default target still calls `get_entity(None)`. When that call raises, the handler returns with no send and no "unmatched" webhook. |
| Worker.ResolveSources | src/account_worker.py:31-34 | The sources are resolved in order, and the first error stops the loop. Without an error there is one handle per source; otherwise fewer handles than sources. |
| Worker.ResolveSourcesAnswers | src/account_worker.py:32-34 | Handle `i` is the client's `i`-th answer. The error, if any, is the answer right after the last handle. |
| Worker.SourcesStep | src/account_worker.py:32-34 | One pass of the sources loop: an error ends the result with the handles collected so far, and a handle joins them. |
| Worker.AccountWorker.constructor | src/account_worker.py:16-22 | A new worker has no client, no sources, an empty cache and no effects. |
| Worker.AccountWorker.Start | src/account_worker.py:24-34 | The worker installs the client and resolves every source in order, with the result given by `ResolveSources`. Exactly the sources tried are requested (normalised), and that many answers are consumed. |
| Worker.AccountWorker.ResolveTarget | src/account_worker.py:54-61 | `resolve_target` updates the cache in place as `ResolveStep` says. |
| Worker.AccountWorker.ResilientCall | src/account_worker.py:63-79 | The `while True` loop ends in the state and result of `RetryStep`. |
| Worker.AccountWorker.SendCopySingle | src/account_worker.py:81-94 | `_send_copy_single` behaves as `CopyStep`. |
| Worker.AccountWorker.SendForwardSingle | src/account_worker.py:96-99 | `_send_forward_single` behaves as `ForwardStep`. |
| Worker.AccountWorker.MaybeWebhook | src/account_worker.py:101-127 | The posts grow by exactly the gated post. |
| Worker.AccountWorker.OnNewMessage | src/account_worker.py:129-176 | An own message is skipped with nothing changed. Without a client the handler fails with nothing changed. Otherwise the result and the new state are those of `HandleStep`. |
| Worker.AccountWorker.Dispatch | src/account_worker.py:138-166 | Decide, then deliver, as `HandleStep` for a message that is not skipped. |
| Worker.AccountWorker.Deliver | src/account_worker.py:159-166 | Resolve, send by mode, then notify, as `DeliverStep`. |
| Scenarios.SalesMatchesPrice | src/models.py:45-59 | The "sales" route (any of "buy", "price", case-insensitive) matches "what's the price?". |
| Scenarios.SalesMissesGreeting | src/models.py:45-59 | The "sales" route does not match "hello". |
| Scenarios.DecidePrice | src/account_worker.py:139-145 | The price question is decided for route "sales": target `@shop`, mode "forward", matched. |
| Scenarios.NormalizeShop | src/utils.py:13-14 | `@shop` normalises to `shop`. |
| Scenarios.ResolveShop | src/account_worker.py:58-61 | Resolving `@shop` asks for `shop` and caches the handle under `@shop`. |
| Scenarios.PriceQuestionGoesToSales | src/account_worker.py:129-166 | End to end, the price question is resolved, forwarded once to the shop handle, and reported with one webhook naming "sales". |
| Scenarios.GreetingWithoutDefaultPostsNothing | src/account_worker.py:146-166 | End to end, "hello" with no default target makes one `get_entity(None)`. When that fails, nothing is sent or posted. |

## Left out

- Client construction and login in `start` (src/account_worker.py:25-29): the client is handed in already started. `add_event_handler` (src/account_worker.py:41-43), `run_forever` and `stop` are Telethon plumbing and are not modelled.
- Telethon itself: `get_entity`, `send_file`, `send_message` and `forward_messages` are one scripted oracle. Each answer depends only on the script, not on the request. Returned entities and messages are opaque handles.
- Retry without limit: the scripted client raises `Disconnected` once its script is used up, so the model cannot express a server that rate-limits forever. Every run it describes is finite.
- Concurrency: asyncio can interleave the handling of two messages at each `await`, for example two cache misses for the same target. The model handles one message at a time.
- `asyncio.sleep` is recorded as a duration in a ghost log. No time passes.
- `post_json` (src/webhook.py) is recorded as one post and never fails. The real client catches and logs every HTTP and transport error, so a failure has no effect on the handler.
- Logging throughout, including the log line after a delivery. `Handled` stands for what that line reports.
- main.py (task creation, `gather`, shutdown) and src/config.py (YAML loading and `_from_dict`) are not part of this model. The configuration records are built directly as datatypes.
- Models.LowerChar: `str.lower()` is modelled for ASCII letters only, not full Unicode case mapping.
- Models.AsGroups: the `Keywords` datatype holds either a flat list of strings or a list of string lists, so mixed lists are ruled out. In the source, a bare string inside a grouped list is split into characters. A list inside a flat list becomes its `str()` text: `["a", ["b"]]` gives `[["a", "['b']"]]`. Keywords that are not strings are converted by `map(str, …)` (src/models.py:31-33); the model holds strings only.
- Worker.Error: a rate-limit error without a `seconds` attribute is given `seconds = 0`. The source treats the two alike (`or 1`).
