/** The gauges of pkg/metrics/metrics.go. `None` is a gauge never set in this process. */
module Metrics {
  import opened Wrappers
  import opened AlertmanagerTypes

  const SECRET_GOALERT := "goalert-secret"
  const SECRET_PD := "pd-secret"
  const SECRET_DMS := "dms-secret"
  const SECRET_ALERTMANAGER := "alertmanager-main"

  datatype GaugeState = GaugeState(
    gaExists: Option<int>,
    pdExists: Option<int>,
    dmsExists: Option<int>,
    amExists: Option<int>,
    containsGA: Option<int>,
    containsPD: Option<int>,
    containsDMS: Option<int>,
    managedExists: Option<int>,
    ocpExists: Option<int>,
    validationFailed: Option<int>)

  const UNSET_GAUGES := GaugeState(None, None, None, None, None, None, None, None, None, None)

  function Flag(b: bool): Option<int> {
    Some(if b then 1 else 0)
  }

  predicate HasReceiver(receivers: seq<Receiver>, name: string) {
    exists i :: 0 <= i < |receivers| && receivers[i].name == name
  }

  /** "Contains" needs the integration's secret and `alertmanager-main` listed, and
      the receiver compiled in. */
  predicate Contains(listed: seq<string>, secret: string, receivers: seq<Receiver>, name: string) {
    SECRET_ALERTMANAGER in listed && secret in listed && HasReceiver(receivers, name)
  }

  function AfterSecrets(g: GaugeState, listed: seq<string>, receivers: seq<Receiver>): GaugeState {
    g.(gaExists := Flag(SECRET_GOALERT in listed),
       pdExists := Flag(SECRET_PD in listed),
       dmsExists := Flag(SECRET_DMS in listed),
       amExists := Flag(SECRET_ALERTMANAGER in listed),
       containsGA := Flag(Contains(listed, SECRET_GOALERT, receivers, "goalert")),
       containsPD := Flag(Contains(listed, SECRET_PD, receivers, "pagerduty")),
       containsDMS := Flag(Contains(listed, SECRET_DMS, receivers, "watchdog")))
  }

  function AfterConfigMaps(g: GaugeState, listed: seq<string>): GaugeState {
    g.(managedExists := Flag("managed-namespaces" in listed), ocpExists := Flag("ocp-namespaces" in listed))
  }

  /** The gauges are global variables of the process. */
  class Gauges {
    var gaExists: Option<int>
    var pdExists: Option<int>
    var dmsExists: Option<int>
    var amExists: Option<int>
    var containsGA: Option<int>
    var containsPD: Option<int>
    var containsDMS: Option<int>
    var managedExists: Option<int>
    var ocpExists: Option<int>
    var validationFailed: Option<int>

    constructor ()
      ensures State() == UNSET_GAUGES
    {
      gaExists, pdExists, dmsExists, amExists := None, None, None, None;
      containsGA, containsPD, containsDMS := None, None, None;
      managedExists, ocpExists, validationFailed := None, None, None;
    }

    function State(): GaugeState
      reads this
    {
      GaugeState(gaExists, pdExists, dmsExists, amExists, containsGA, containsPD, containsDMS,
                 managedExists, ocpExists, validationFailed)
    }

    static method FindReceiver(receivers: seq<Receiver>, name: string) returns (found: bool)
      ensures found <==> HasReceiver(receivers, name)
    {
      found := false;
      for i := 0 to |receivers|
        invariant found <==> exists k :: 0 <= k < i && receivers[k].name == name
      {
        if receivers[i].name == name {
          found := true;
        }
      }
    }

    method UpdateSecretsMetrics(listed: seq<string>, receivers: seq<Receiver>)
      modifies this
      ensures State() == AfterSecrets(old(State()), listed, receivers)
    {
      var ga, pd, dms, am := false, false, false, false;
      for i := 0 to |listed|
        invariant ga == (SECRET_GOALERT in listed[..i]) && pd == (SECRET_PD in listed[..i])
        invariant dms == (SECRET_DMS in listed[..i]) && am == (SECRET_ALERTMANAGER in listed[..i])
      {
        var name := listed[i];
        assert listed[..i + 1] == listed[..i] + [name];
        match name {
          case "goalert-secret" => ga := true;
          case "pd-secret" => pd := true;
          case "dms-secret" => dms := true;
          case "alertmanager-main" => am := true;
          case _ =>
        }
      }
      assert listed[..|listed|] == listed;
      var amGA, amPD, amDMS := false, false, false;
      if am {
        if ga {
          amGA := FindReceiver(receivers, "goalert");
        }
        if pd {
          amPD := FindReceiver(receivers, "pagerduty");
        }
        if dms {
          amDMS := FindReceiver(receivers, "watchdog");
        }
      }
      gaExists, pdExists, dmsExists, amExists := Flag(ga), Flag(pd), Flag(dms), Flag(am);
      containsGA, containsPD, containsDMS := Flag(amGA), Flag(amPD), Flag(amDMS);
    }

    method UpdateConfigMapMetrics(listed: seq<string>)
      modifies this
      ensures State() == AfterConfigMaps(old(State()), listed)
    {
      var managed, ocp := false, false;
      for i := 0 to |listed|
        invariant managed == ("managed-namespaces" in listed[..i]) && ocp == ("ocp-namespaces" in listed[..i])
      {
        var name := listed[i];
        assert listed[..i + 1] == listed[..i] + [name];
        match name {
          case "managed-namespaces" => managed := true;
          case "ocp-namespaces" => ocp := true;
          case _ =>
        }
      }
      assert listed[..|listed|] == listed;
      managedExists, ocpExists := Flag(managed), Flag(ocp);
    }

    method UpdateValidationMetric(passed: bool)
      modifies this`validationFailed
      ensures validationFailed == Flag(!passed)
    {
      if passed {
        validationFailed := Some(0);
      } else {
        validationFailed := Some(1);
      }
    }
  }
}
