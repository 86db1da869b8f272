/** The three data-only tools of the SOC tool server: `get_recent_alerts`,
    `check_ip_reputation` and `get_alert_details`, over the server's two read-only
    tables. Each tool takes the table it reads as a parameter, so that its laws hold
    for any data; the server's own tables are the constants `SimulatedAlerts` and
    `KnownMaliciousIps`. The tools are functions: none of them can change a table. */
module SocTools {
  import opened Wrappers

  /** One entry of the simulated SIEM alert log. */
  datatype Alert = Alert(
    id: string,
    timestamp: string,
    sourceIp: string,
    destinationIp: string,
    eventType: string,
    severity: string,
    attempts: int)

  /** What the threat-intelligence table records about a known-bad IP. */
  datatype ThreatInfo = ThreatInfo(threat: string, confidence: int)

  /** The server's threat-intelligence table, keyed by IPv4 address. */
  const KnownMaliciousIps: map<string, ThreatInfo> := map[
    "185.220.101.45" := ThreatInfo("Tor Exit Node", 90),
    "192.42.116.16" := ThreatInfo("Port Scanning", 75),
    "45.33.32.156" := ThreatInfo("Known C2 Server", 88),
    "198.199.10.1" := ThreatInfo("Brute Force Source", 72),
    "89.248.167.131" := ThreatInfo("Malware Distribution", 95)
  ]

  /** The server's alert log, oldest first. */
  const SimulatedAlerts: seq<Alert> := [
    Alert("ALT-001", "2024-01-15T10:23:00Z", "185.220.101.45", "10.0.1.22", "SSH Brute Force", "HIGH", 847),
    Alert("ALT-002", "2024-01-15T10:25:00Z", "192.168.1.105", "10.0.1.5", "Port Scan", "MEDIUM", 12),
    Alert("ALT-003", "2024-01-15T10:27:00Z", "45.33.32.156", "10.0.1.44", "Suspicious Outbound Connection", "HIGH", 3),
    Alert("ALT-004", "2024-01-15T10:30:00Z", "10.0.0.52", "8.8.8.8", "Unusual DNS Volume", "MEDIUM", 1203),
    Alert("ALT-005", "2024-01-15T10:31:00Z", "89.248.167.131", "10.0.1.10", "Possible Data Exfiltration", "CRITICAL", 1)
  ]

  function Min(a: int, b: int): int { if a <= b then a else b }
  function Max(a: int, b: int): int { if a <= b then b else a }

  // ---------------------------------------------------------------------------
  // get_recent_alerts
  // ---------------------------------------------------------------------------

  /** The cap that `get_recent_alerts` puts on its `limit` argument. */
  const MaxAlerts := 10

  /** Python's `s[:stop]`: a non-negative `stop` keeps the first `stop` elements
      (all of them if there are fewer); a negative `stop` counts from the end and
      drops the last `-stop` elements (all of them if there are fewer). */
  function PrefixSlice<T>(s: seq<T>, stop: int): (r: seq<T>)
    ensures |r| <= |s| && r == s[..|r|]
    ensures 0 <= stop ==> |r| == Min(stop, |s|)
    ensures stop < 0 ==> |r| == Max(|s| + stop, 0)
  {
    if 0 <= stop then
      (if stop <= |s| then s[..stop] else s)
    else
      (if -stop <= |s| then s[..|s| + stop] else [])
  }

  /** The JSON object `get_recent_alerts` serialises: a count and the alerts. */
  datatype RecentAlerts = RecentAlerts(alertCount: int, alerts: seq<Alert>)

  /** `get_recent_alerts(limit)`: caps `limit` at `MaxAlerts`, then returns the
      Python slice `alerts[:limit]` with its length as `alert_count`. A negative
      limit is left alone by the cap and drops alerts from the END of the table. */
  function GetRecentAlerts(alerts: seq<Alert>, limit: int): (r: RecentAlerts)
    ensures r.alertCount == |r.alerts|
    ensures |r.alerts| <= |alerts| && r.alerts == alerts[..|r.alerts|]
    ensures 0 <= limit ==> |r.alerts| == Min(Min(limit, MaxAlerts), |alerts|)
    ensures limit < 0 ==> |r.alerts| == Max(|alerts| + limit, 0)
  {
    var capped := Min(limit, MaxAlerts);
    var selected := PrefixSlice(alerts, capped);
    RecentAlerts(|selected|, selected)
  }

  /** For a non-negative limit the cap holds: at most `MaxAlerts` alerts come back,
      and asking for more never returns fewer, in table order. */
  lemma RecentAlertsMonotone(alerts: seq<Alert>, small: int, large: int)
    requires 0 <= small <= large
    ensures |GetRecentAlerts(alerts, large).alerts| <= MaxAlerts
    ensures GetRecentAlerts(alerts, small).alerts <= GetRecentAlerts(alerts, large).alerts
  {
    var s := GetRecentAlerts(alerts, small).alerts;
    var l := GetRecentAlerts(alerts, large).alerts;
    assert |s| <= |l|;
    assert s == alerts[..|s|] == l[..|s|];
  }

  /** A negative limit is not capped: on a table of twelve alerts, `limit = -1`
      returns eleven alerts, more than the documented maximum of ten. */
  lemma NegativeLimitBypassesCap(alerts: seq<Alert>)
    requires |alerts| == 12
    ensures GetRecentAlerts(alerts, -1).alerts == alerts[..11]
    ensures GetRecentAlerts(alerts, -1).alertCount > MaxAlerts
  {
  }

  /** On the server's own table a negative limit drops the newest alerts. */
  lemma NegativeLimitOnSimulatedAlerts()
    ensures GetRecentAlerts(SimulatedAlerts, -2).alerts == SimulatedAlerts[..3]
    ensures GetRecentAlerts(SimulatedAlerts, -7).alerts == []
    ensures GetRecentAlerts(SimulatedAlerts, 50).alertCount == 5
  {
  }

  // ---------------------------------------------------------------------------
  // check_ip_reputation
  // ---------------------------------------------------------------------------

  const BlockRecommendation := "BLOCK - High confidence threat indicator"
  const MonitorRecommendation := "MONITOR - No known threat indicators"
  const NoThreatDetected := "None detected"

  /** The JSON object `check_ip_reputation` serialises, without its wall-clock
      `checked_at` field. */
  datatype Reputation = Reputation(
    ip: string,
    isMalicious: bool,
    threatType: string,
    confidenceScore: int,
    recommendation: string)

  /** `check_ip_reputation(ip_address)`: a membership test on the threat table,
      with one result shape for a listed IP and one for an unlisted IP. */
  function CheckIpReputation(table: map<string, ThreatInfo>, ip: string): (r: Reputation)
    ensures r.ip == ip
    ensures r.isMalicious <==> ip in table
    ensures ip in table ==>
      && r.threatType == table[ip].threat
      && r.confidenceScore == table[ip].confidence
      && r.recommendation == BlockRecommendation
    ensures ip !in table ==>
      && r.threatType == NoThreatDetected
      && r.confidenceScore == 0
      && r.recommendation == MonitorRecommendation
  {
    if ip in table then
      var info := table[ip];
      Reputation(ip, true, info.threat, info.confidence, BlockRecommendation)
    else
      Reputation(ip, false, NoThreatDetected, 0, MonitorRecommendation)
  }

  /** The two result shapes can be told apart by the recommendation alone, and a
      verdict depends only on the table entry for that IP: adding or removing OTHER
      entries never changes it. */
  lemma ReputationIsLocal(table: map<string, ThreatInfo>, other: map<string, ThreatInfo>, ip: string)
    requires (ip in table <==> ip in other) && (ip in table ==> table[ip] == other[ip])
    ensures CheckIpReputation(table, ip) == CheckIpReputation(other, ip)
    ensures CheckIpReputation(table, ip).isMalicious
        <==> CheckIpReputation(table, ip).recommendation == BlockRecommendation
  {
  }

  /** On the server's own tables: the external sources of ALT-001 and ALT-003 are
      flagged with their listed confidence and threat; the internal source of
      ALT-002 is not. */
  lemma SimulatedSourcesFlagged()
    ensures CheckIpReputation(KnownMaliciousIps, SimulatedAlerts[0].sourceIp).confidenceScore == 90
    ensures CheckIpReputation(KnownMaliciousIps, SimulatedAlerts[2].sourceIp).threatType == "Known C2 Server"
    ensures !CheckIpReputation(KnownMaliciousIps, SimulatedAlerts[1].sourceIp).isMalicious
  {
  }

  // ---------------------------------------------------------------------------
  // get_alert_details
  // ---------------------------------------------------------------------------

  /** Position of the first alert whose id is `id`, scanning in table order. */
  function FindAlert(alerts: seq<Alert>, id: string): (r: Option<nat>)
    ensures r.Some? ==> r.value < |alerts| && alerts[r.value].id == id
    ensures r.Some? ==> forall j | 0 <= j < r.value :: alerts[j].id != id
    ensures r.None? ==> forall j | 0 <= j < |alerts| :: alerts[j].id != id
  {
    if alerts == [] then None
    else if alerts[0].id == id then Some(0)
    else
      match FindAlert(alerts[1..], id)
      case None => None
      case Some(k) => Some(k + 1)
  }

  /** What `get_alert_details` serialises: the alert itself, or an error object. */
  datatype AlertDetails = Found(alert: Alert) | NotFound(error: string)

  /** The error text for an unknown alert id. */
  function NotFoundMessage(id: string): string {
    "Alert " + id + " not found"
  }

  /** `get_alert_details(alert_id)`: the first alert with that id, or a not-found
      error naming the id. */
  function GetAlertDetails(alerts: seq<Alert>, id: string): (r: AlertDetails)
    ensures r.Found? <==> exists j | 0 <= j < |alerts| :: alerts[j].id == id
    ensures r.Found? ==> r.alert in alerts && r.alert.id == id
    ensures r.Found? ==> exists j | 0 <= j < |alerts| ::
      alerts[j] == r.alert && forall i | 0 <= i < j :: alerts[i].id != id
    ensures r.NotFound? ==> r.error == NotFoundMessage(id)
  {
    match FindAlert(alerts, id)
    case Some(k) => Found(alerts[k])
    case None => NotFound(NotFoundMessage(id))
  }

  /** Alert ids are unique in a table. */
  ghost predicate UniqueIds(alerts: seq<Alert>) {
    forall i, j | 0 <= i < j < |alerts| :: alerts[i].id != alerts[j].id
  }

  /** With unique ids, every alert that `get_recent_alerts` lists can be fetched
      back, unchanged, by `get_alert_details` under its id. */
  lemma ListedAlertsResolve(alerts: seq<Alert>, limit: int, k: nat)
    requires UniqueIds(alerts)
    requires k < |GetRecentAlerts(alerts, limit).alerts|
    ensures GetAlertDetails(alerts, GetRecentAlerts(alerts, limit).alerts[k].id)
         == Found(GetRecentAlerts(alerts, limit).alerts[k])
  {
    var a := GetRecentAlerts(alerts, limit).alerts[k];
    assert a == alerts[k];
  }

  /** The server's own alert log has unique ids. */
  lemma SimulatedAlertsUniqueIds()
    ensures UniqueIds(SimulatedAlerts)
  {
  }
}
