/**
 * `src/services/WebhookService.js`: choosing the subscriptions an event goes to and building
 * the request each of them receives. The HTTP call itself is abstract: whether an endpoint
 * answers in time is a parameter, recorded with the attempt and never reported back.
 */
module Webhooks {
  import opened Js
  import opened UserModel
  import Http

  const DefaultTimeout: nat := 5000
  const UserAgent := "AuthNexus-Webhook/1.0"

  /** One entry of `webhookConfig.webhooks`. */
  datatype Subscription = Subscription(
    id: JsVal<string>,
    url: string,
    events: JsVal<seq<string>>,
    headers: JsVal<map<string, string>>,
    timeout: JsVal<nat>,
    retries: JsVal<nat>)

  /** `webhookConfig`: `enabled` stands for the truthiness of the field. */
  datatype WebhookConfig = WebhookConfig(enabled: bool, webhooks: JsVal<seq<Subscription>>)

  /** A `WebhookService` instance. */
  datatype Service = Service(config: WebhookConfig, webhooks: seq<Subscription>)

  /** `{ user: user.toObject() }`, the data every event of the package carries. */
  datatype Payload = Payload(user: Snapshot)

  datatype Envelope = Envelope(event: string, data: Payload, timestamp: nat, webhookId: string)

  /** What `axios.post` is called with. */
  datatype Request = Request(url: string, body: Envelope, headers: map<string, string>, timeout: nat)

  /** One delivery attempt, the subscription it was for, and whether the endpoint answered. */
  datatype Attempt = Attempt(subscription: Subscription, request: Request, delivered: bool)

  /** `new WebhookService(config)`: a missing list is an empty one. */
  function NewService(config: WebhookConfig): (s: Service)
    ensures config.webhooks.Is? ==> s.webhooks == config.webhooks.v
    ensures !config.webhooks.Is? ==> s.webhooks == []
  {
    Service(config, if config.webhooks.Is? then config.webhooks.v else [])
  }

  predicate Subscribes(w: Subscription, event: string) {
    w.events.Is? && event in w.events.v
  }

  /**
   * `this.webhooks.filter((webhook) => webhook.events.includes(event))`. The filter visits every
   * entry, so one entry without an `events` list makes the whole call throw.
   */
  function Select(ws: seq<Subscription>, event: string): (r: Option<seq<Subscription>>)
    ensures r.None? <==> exists i :: 0 <= i < |ws| && !ws[i].events.Is?
    ensures r.Some? ==> forall w :: w in r.value ==> Subscribes(w, event)
    ensures r.Some? ==> forall w :: multiset(r.value)[w] == if Subscribes(w, event) then multiset(ws)[w] else 0
  {
    if ws == [] then Some([])
    else if !ws[0].events.Is? then None
    else
      var rest := Select(ws[1..], event);
      assert ws == [ws[0]] + ws[1..];
      assert forall i :: 1 <= i < |ws| ==> ws[i] == ws[1..][i - 1];
      if rest.None? then None
      else if Subscribes(ws[0], event) then Some([ws[0]] + rest.value)
      else Some(rest.value)
  }

  /** The spread of `webhook.headers`: an absent or `null` object adds nothing. */
  function CustomHeaders(w: Subscription): map<string, string> {
    if w.headers.Is? then w.headers.v else map[]
  }

  const BaseHeaders: map<string, string> := map["Content-Type" := Http.JsonContentType, "User-Agent" := UserAgent]

  /** The two fixed headers, then the subscription's own, which win on a collision. */
  function Headers(w: Subscription): (h: map<string, string>)
    ensures h.Keys == BaseHeaders.Keys + CustomHeaders(w).Keys
    ensures forall k :: k in CustomHeaders(w) ==> h[k] == CustomHeaders(w)[k]
    ensures "Content-Type" !in CustomHeaders(w) ==> h["Content-Type"] == Http.JsonContentType
    ensures "User-Agent" !in CustomHeaders(w) ==> h["User-Agent"] == UserAgent
  {
    BaseHeaders + CustomHeaders(w)
  }

  /** `webhook.timeout || 5000`. */
  function Timeout(w: Subscription): (t: nat)
    ensures t != 0
    ensures !TruthyNumber(w.timeout) ==> t == DefaultTimeout
    ensures TruthyNumber(w.timeout) ==> t == w.timeout.v
  {
    if TruthyNumber(w.timeout) then w.timeout.v else DefaultTimeout
  }

  /** `webhook.id || webhook.url`. */
  function WebhookId(w: Subscription): string {
    if TruthyString(w.id) then w.id.v else w.url
  }

  /**
   * `sendWebhook`: one POST of the envelope; a failure is logged and swallowed, and `retries`
   * is read but nothing is retried.
   */
  function SendWebhook(w: Subscription, event: string, data: Payload, now: nat, answers: Request -> bool): (a: Attempt)
    ensures a.subscription == w && a.request.url == w.url
    ensures a.request.body == Envelope(event, data, now, if TruthyString(w.id) then w.id.v else w.url)
    ensures a.request.headers == Headers(w)
    ensures a.request.timeout == if TruthyNumber(w.timeout) then w.timeout.v else DefaultTimeout
    ensures a.delivered == answers(a.request)
  {
    var request := Request(w.url, Envelope(event, data, now, WebhookId(w)), Headers(w), Timeout(w));
    Attempt(w, request, answers(request))
  }

  function Targets(attempts: seq<Attempt>): (ws: seq<Subscription>)
    ensures |ws| == |attempts|
    ensures forall i :: 0 <= i < |attempts| ==> ws[i] == attempts[i].subscription
  {
    seq(|attempts|, i requires 0 <= i < |attempts| => attempts[i].subscription)
  }

  /**
   * `trigger(event, data)`: one attempt per subscribed entry, none for any other entry. The
   * settled outcomes are awaited and dropped, so `None` (the filter's TypeError) is the only failure.
   */
  function Trigger(s: Service, event: string, data: Payload, now: nat, answers: Request -> bool): (r: Option<seq<Attempt>>)
    ensures r.None? <==> exists i :: 0 <= i < |s.webhooks| && !s.webhooks[i].events.Is?
    ensures r.Some? ==> forall w :: multiset(Targets(r.value))[w] ==
                                    if Subscribes(w, event) then multiset(s.webhooks)[w] else 0
    ensures r.Some? ==> forall a :: a in r.value ==>
                          a == SendWebhook(a.subscription, event, data, now, answers)
  {
    var selected := Select(s.webhooks, event);
    if selected.None? then None
    else
      var attempts := seq(|selected.value|, i requires 0 <= i < |selected.value| =>
                            SendWebhook(selected.value[i], event, data, now, answers));
      assert Targets(attempts) == selected.value;
      Some(attempts)
  }

  /** Whether endpoints answer changes neither whether `trigger` fails nor what it sends. */
  lemma OutcomesAreSwallowed(s: Service, event: string, data: Payload, now: nat, a1: Request -> bool, a2: Request -> bool)
    ensures Trigger(s, event, data, now, a1).None? <==> Trigger(s, event, data, now, a2).None?
    ensures Trigger(s, event, data, now, a1).Some? ==>
              var r1, r2 := Trigger(s, event, data, now, a1).value, Trigger(s, event, data, now, a2).value;
              |r1| == |r2| && forall i :: 0 <= i < |r1| ==> r1[i].request == r2[i].request
  {
  }

  /** Without a `webhooks` list the service sends nothing, whatever the event. */
  lemma MissingListSendsNothing(config: WebhookConfig, event: string, data: Payload, now: nat, answers: Request -> bool)
    requires !config.webhooks.Is?
    ensures Trigger(NewService(config), event, data, now, answers) == Some([])
  {
    var none: seq<Subscription> := [];
    assert Select(none, event) == Some([]);
    assert NewService(config).webhooks == none;
    var r := Trigger(NewService(config), event, data, now, answers);
    assert r.Some? && |r.value| == 0;
  }

  /** A single subscribed entry gets exactly one attempt, whatever its `retries`. */
  lemma OneAttemptDespiteRetries(config: WebhookConfig, w: Subscription, event: string, data: Payload, now: nat,
                                 answers: Request -> bool)
    requires Subscribes(w, event) && TruthyNumber(w.retries)
    ensures Trigger(Service(config, [w]), event, data, now, answers) == Some([SendWebhook(w, event, data, now, answers)])
  {
    var ws := [w];
    assert ws[1..] == [];
    assert Select(ws[1..], event) == Some([]);
    assert [ws[0]] + [] == ws;
    assert Select(ws, event) == Some(ws);
    var r := Trigger(Service(config, ws), event, data, now, answers);
    var a := SendWebhook(w, event, data, now, answers);
    assert r.Some? && |r.value| == 1 && r.value[0] == a;
    assert r.value == [a];
  }
}
