/** What the whole model shares: options, results and optional lists. */
module Wrappers {
  datatype Option<+T> = None | Some(value: T)

  datatype Result<+T> = Ok(value: T) | Err(reason: string)

  function When<T>(condition: bool, items: seq<T>): seq<T> {
    if condition then items else []
  }
}

/** The Alertmanager configuration types of pkg/types/alertmanagerconfig.go.
    `Match`, `MatchRE` and `Continue` are Dafny keywords or close to them, hence
    `matchEq`, `matchRE` and `continues`. */
module AlertmanagerTypes {
  import opened Wrappers

  datatype Route = Route(
    receiver: string,
    groupBy: seq<string>,
    matchEq: map<string, string>,
    matchRE: map<string, string>,
    continues: bool,
    routes: seq<Route>,
    groupWait: string,
    groupInterval: string,
    repeatInterval: string)

  datatype HttpConfig = HttpConfig(proxyURL: string)

  datatype WebhookConfig = WebhookConfig(sendResolved: bool, url: string, http: HttpConfig)

  /** The Go templates the operator passes on unread, by what they render. */
  datatype Template =
    | SeverityTemplate
    | DescriptionTemplate
    | ClientURLTemplate
    | AlertNameTemplate
    | LinkTemplate
    | NumFiringTemplate
    | NumResolvedTemplate
    | ResolvedTemplate

  /** A notification text: given outright, or left to a template. */
  datatype Text = Fixed(text: string) | Rendered(template: Template)

  datatype PagerdutyConfig = PagerdutyConfig(
    sendResolved: bool,
    routingKey: string,
    url: string,
    severity: Text,
    clientURL: Text,
    description: Text,
    details: map<string, Text>,
    http: HttpConfig)

  datatype Receiver = Receiver(
    name: string,
    pagerduty: seq<PagerdutyConfig>,
    webhooks: seq<WebhookConfig>)

  datatype GlobalConfig = GlobalConfig(resolveTimeout: string, pagerdutyURL: string)

  datatype InhibitRule = InhibitRule(
    equal: seq<string>,
    sourceMatch: map<string, string>,
    targetMatchRE: map<string, string>)

  datatype Config = Config(
    global: Option<GlobalConfig>,
    route: Option<Route>,
    receivers: seq<Receiver>,
    templates: seq<string>,
    inhibitRules: seq<InhibitRule>)

  const PD_REGEX_LP := "^redhat-.*"
  const PD_REGEX_KUBE := "^kube-.*"
  const PD_REGEX_OS := "^openshift-.*"

  const DEFAULT_PAGERDUTY_URL := "https://events.pagerduty.com/v2/enqueue"

  function ReceiverNames(receivers: seq<Receiver>): seq<string> {
    seq(|receivers|, i requires 0 <= i < |receivers| => receivers[i].name)
  }
}
