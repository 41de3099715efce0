/** The resolved configuration of an `AuthCore`, the services it sets up, and what the routes receive. */
module Settings {
  import opened Js
  import opened Webhooks

  /** `emailConfig`; `enabled` stands for the truthiness of that field. The transport settings are not part of this model. */
  datatype EmailConfig = EmailConfig(enabled: bool)

  /** `this.config` after the constructor. `jwtSecret` is carried along; signatures are abstract (see Tokens). */
  datatype Config = Config(
    mongoURI: JsVal<string>,
    jwtSecret: JsVal<string>,
    baseUrl: JsVal<string>,
    emailConfig: JsVal<EmailConfig>,
    webhookConfig: JsVal<WebhookConfig>)

  /** `this.services`: an `EmailService` and a `WebhookService`, each present or not. */
  datatype Services = Services(email: Option<EmailConfig>, webhook: Option<Service>)

  const NoServices := Services(None, None)

  /** What `getRouter()` hands the routes: whether `models.User` is set, the services and the config. */
  datatype RouteEnv = RouteEnv(modelReady: bool, services: Services, config: Config)
}
