/**
 * What the package sends to the outside: emails handed to the mail service and events handed
 * to the webhook service. The mail transport is abstract: a function says whether it accepts
 * a message or rejects it with a reason.
 */
module Effects {
  import opened Js
  import opened Tokens
  import opened UserModel
  import opened Webhooks
  import opened Settings

  datatype MailKind = VerificationMail | ResetMail

  /** The value passed in the token position: a signed token, or whatever else a caller put there. */
  datatype MailArg = TokenArg(token: Jwt) | TextArg(text: JsVal<string>)

  /** `sendVerificationEmail(user, token, baseUrl)` / `sendPasswordResetEmail(user, token, baseUrl)`. */
  datatype Email = Email(kind: MailKind, to: string, token: MailArg, baseUrl: JsVal<string>)

  datatype MailOutcome = Delivered | Rejected(reason: string)

  /** One `trigger(event, { user })` that got past the filter, with the attempts it made. */
  datatype Emitted = Emitted(event: string, attempts: seq<Attempt>)

  /**
   * What `trigger` adds to the event log: nothing without a webhook service, one entry when
   * the filter passes, and `None` when the filter throws.
   */
  function Announcement(svc: Option<Service>, event: string, u: User, now: nat, answers: Request -> bool): Option<seq<Emitted>> {
    if svc.None? then Some([])
    else
      var t := Trigger(svc.value, event, Payload(ToObject(u)), now, answers);
      if t.None? then None else Some([Emitted(event, t.value)])
  }

  /**
   * No service, no entry; a service whose list has an entry without `events` fails the call;
   * otherwise one entry, whose every attempt carries the event and the user's snapshot.
   */
  lemma AnnouncementShape(svc: Option<Service>, event: string, u: User, now: nat, answers: Request -> bool)
    ensures var r := Announcement(svc, event, u, now, answers);
            && (svc.None? ==> r == Some([]))
            && (svc.Some? ==> (r.None? <==> exists i :: 0 <= i < |svc.value.webhooks| && !svc.value.webhooks[i].events.Is?))
            && (svc.Some? && r.Some? ==> |r.value| == 1 && r.value[0].event == event)
            && (r.Some? ==> forall e, a :: e in r.value && a in e.attempts ==>
                  a.request.body.data == Payload(ToObject(u)) && a.request.body.event == event)
  {
  }

  /** The log of everything sent; a rejected email is in `emailsSent` too, since it was handed over. */
  class Outbox {
    var published: seq<Emitted>
    var emailsSent: seq<Email>

    constructor ()
      ensures published == [] && emailsSent == []
    {
      published := [];
      emailsSent := [];
    }

    /** `if (services.email) await services.email.send…(…)`: the reason of a rejection, if any. */
    method Mail(svc: Option<EmailConfig>, m: Email, mailer: Email -> MailOutcome) returns (failure: Option<string>)
      modifies this`emailsSent
      ensures svc.Some? ==> emailsSent == old(emailsSent) + [m]
      ensures svc.None? ==> emailsSent == old(emailsSent)
      ensures failure.Some? <==> svc.Some? && mailer(m).Rejected?
      ensures failure.Some? ==> failure.value == mailer(m).reason
    {
      failure := None;
      if svc.Some? {
        emailsSent := emailsSent + [m];
        var outcome := mailer(m);
        if outcome.Rejected? {
          failure := Some(outcome.reason);
        }
      }
    }

    /** `if (services.webhook) await services.webhook.trigger(event, { user: user.toObject() })`. */
    method Announce(svc: Option<Service>, event: string, u: User, now: nat, answers: Request -> bool) returns (ok: bool)
      modifies this`published
      ensures ok <==> Announcement(svc, event, u, now, answers).Some?
      ensures ok ==> published == old(published) + Announcement(svc, event, u, now, answers).value
      ensures !ok ==> published == old(published)
    {
      var a := Announcement(svc, event, u, now, answers);
      ok := a.Some?;
      if ok {
        published := published + a.value;
      }
    }
  }
}
