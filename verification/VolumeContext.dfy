/** The volume context on its way from the controller to the node. */
module VolumeContext {
  import opened Wrappers
  import opened Decimal
  import opened Csi
  import opened IscsiApi
  import opened IscsiMachine
  import opened IscsiSafety
  import opened IscsiAnswers

  type Context = map<string, string>

  const ISCSI_KEYS: set<string> := {KEY_TARGET_PORTAL, KEY_IQN, KEY_LUN, KEY_PORTALS}

  // The check by counting

  /** Counts the required keys while going over the context in whatever order it comes. */
  method CountKeys(context: Context, required: set<string>) returns (found: nat)
    ensures found == |context.Keys * required|
  {
    found := 0;
    var todo := context.Keys;
    while todo != {}
      invariant found + |todo * required| == |context.Keys * required|
      decreases |todo|
    {
      var k :| k in todo;
      WithoutOne(todo, required, k);
      if k in required {
        found := found + 1;
      }
      todo := todo - {k};
    }
  }

  lemma WithoutOne(todo: set<string>, required: set<string>, k: string)
    requires k in todo
    ensures |todo * required| == |(todo - {k}) * required| + if k in required then 1 else 0
  {
    if k in required {
      assert todo * required == (todo - {k}) * required + {k};
    } else {
      assert todo * required == (todo - {k}) * required;
    }
  }

  lemma FullCount(keys: set<string>, required: set<string>)
    ensures |keys * required| == |required| <==> required <= keys
  {
    assert required == keys * required + (required - keys);
    assert |required| == |keys * required| + |required - keys|;
    if required <= keys {
      assert required - keys == {};
    }
  }

  /** The check of node publish and of capability validation: exact for every context, extra keys or not. */
  method ContextComplete(context: Context, required: set<string>) returns (ok: bool)
    ensures ok <==> required <= context.Keys
  {
    var found := CountKeys(context, required);
    FullCount(context.Keys, required);
    ok := found == |required|;
  }

  // From the context to a connector

  /** CHAP credentials, as the iSCSI library takes them. */
  datatype Secrets = Secrets(kind: string, userName: string, password: string, userNameIn: string, passwordIn: string)

  const NO_SECRETS := Secrets("", "", "", "", "")
  const SESSION_AUTH := "node.session.auth."
  const DISCOVERY_AUTH := "node.sendtargets.auth."

  /** Reading JSON text: a list of strings, and an object of strings. */
  datatype Json = Json(list: string -> Option<seq<string>>, table: string -> Option<Context>)

  datatype Disk = Disk(
    volName: string,
    portals: seq<string>,
    iqn: string,
    lun: int,
    iface: string,
    chapDiscovery: bool,
    chapSession: bool,
    sessionSecret: Secrets,
    discoverySecret: Secrets,
    initiatorName: string)

  datatype Connector = Connector(
    volumeName: string,
    iqn: string,
    portals: seq<string>,
    lun: int,
    doDiscovery: bool,
    sessionSecrets: Secrets,
    discoverySecrets: Secrets)

  /** A value of the context; a missing key reads as the empty string. */
  function Value(context: Context, key: string): string {
    if key in context then context[key] else ""
  }

  /** A portal with the standard iSCSI port, when it has none. */
  function PortalMounter(portal: string): string {
    if ':' in portal then portal else portal + ":3260"
  }

  function PortalList(portals: seq<string>): seq<string> {
    seq(|portals|, i requires 0 <= i < |portals| => PortalMounter(portals[i]))
  }

  /** The conversion of an int to an int32. */
  function Wrap32(n: int): int {
    (n + 0x8000_0000) % 0x1_0000_0000 - 0x8000_0000
  }

  /** The secret of a request; text that cannot be read counts as none. */
  function SecretOf(context: Context, json: Json): Context {
    match json.table(Value(context, "secret"))
    case None => map[]
    case Some(secret) => secret
  }

  predicate HasCredentials(secret: Context, prefix: string) {
    && prefix + "username" in secret && prefix + "password" in secret
    && prefix + "username_in" in secret && prefix + "password_in" in secret
  }

  /** The credentials with the given prefix: none without a secret, and all four of them with one. */
  function Credentials(secret: Context, prefix: string): Option<Secrets> {
    if secret == map[] then Some(NO_SECRETS)
    else if !HasCredentials(secret, prefix) then None
    else
      Some(Secrets("chap", secret[prefix + "username"], secret[prefix + "password"],
                   secret[prefix + "username_in"], secret[prefix + "password_in"]))
  }

  /** What the node makes of a publish request. */
  function DiskOf(volume: string, context: Context, json: Json): Option<Disk> {
    var tp, iqn, lun := Value(context, KEY_TARGET_PORTAL), Value(context, KEY_IQN), Value(context, KEY_LUN);
    var secret := SecretOf(context, json);
    var session, discovery := Credentials(secret, SESSION_AUTH), Credentials(secret, DISCOVERY_AUTH);
    if tp == "" || iqn == "" || lun == "" || session.None? || discovery.None? then None
    else
      match json.list(Value(context, KEY_PORTALS))
      case None => None
      case Some(portals) =>
        match ParseInt64(lun)
        case None => None
        case Some(l) =>
          Some(Disk(
            volume, [PortalMounter(tp)] + PortalList(portals), iqn, Wrap32(l), Value(context, "iscsiInterface"),
            Value(context, "discoveryCHAPAuth") == "true", Value(context, "sessionCHAPAuth") == "true",
            session.value, discovery.value, Value(context, "initiatorName")))
  }

  /** Reads the disk out of a publish request, collecting the portals in a loop. */
  method GetIscsiInfo(volume: string, context: Context, json: Json) returns (r: Option<Disk>)
    ensures r == DiskOf(volume, context, json)
  {
    var tp, iqn, lun := Value(context, KEY_TARGET_PORTAL), Value(context, KEY_IQN), Value(context, KEY_LUN);
    if tp == "" || iqn == "" || lun == "" {
      return None;
    }
    var secret := SecretOf(context, json);
    var sessionSecret := Credentials(secret, SESSION_AUTH);
    if sessionSecret.None? {
      return None;
    }
    var discoverySecret := Credentials(secret, DISCOVERY_AUTH);
    if discoverySecret.None? {
      return None;
    }
    var bkportal := [PortalMounter(tp)];
    var portals := json.list(Value(context, KEY_PORTALS));
    if portals.None? {
      return None;
    }
    for i := 0 to |portals.value|
      invariant bkportal == [PortalMounter(tp)] + PortalList(portals.value)[..i]
    {
      bkportal := bkportal + [PortalMounter(portals.value[i])];
    }
    assert bkportal == [PortalMounter(tp)] + PortalList(portals.value);
    var chapDiscovery, chapSession := false, false;
    if Value(context, "discoveryCHAPAuth") == "true" {
      chapDiscovery := true;
    }
    if Value(context, "sessionCHAPAuth") == "true" {
      chapSession := true;
    }
    var l := ParseInt64(lun);
    if l.None? {
      return None;
    }
    r := Some(Disk(volume, bkportal, iqn, Wrap32(l.value), Value(context, "iscsiInterface"), chapDiscovery, chapSession,
                   sessionSecret.value, discoverySecret.value, Value(context, "initiatorName")));
  }

  /** The connector for a disk, unless something it cannot do without is missing. The secrets are set step by step:
      those for discovery only together with those for the session. */
  method BuildIscsiConnector(disk: Disk) returns (r: Option<Connector>)
    ensures r == BuildConnector(disk)
  {
    if disk.volName == "" || disk.iqn == "" || |disk.portals| == 0 {
      return None;
    }
    var c := Connector(disk.volName, disk.iqn, disk.portals, disk.lun, true, NO_SECRETS, NO_SECRETS);
    if disk.sessionSecret != NO_SECRETS {
      c := c.(sessionSecrets := disk.sessionSecret);
      if disk.discoverySecret != NO_SECRETS {
        c := c.(discoverySecrets := disk.discoverySecret);
      }
    }
    r := Some(c);
  }

  function BuildConnector(disk: Disk): Option<Connector> {
    if disk.volName == "" || disk.iqn == "" || |disk.portals| == 0 then None
    else
      Some(Connector(disk.volName, disk.iqn, disk.portals, disk.lun, true, disk.sessionSecret,
                     if disk.sessionSecret == NO_SECRETS then NO_SECRETS else disk.discoverySecret))
  }

  /** The connector of a request carries credentials for session and discovery exactly when the request comes with a
      secret: both or neither, and a secret that lacks any of the eight keys makes no connector. */
  lemma CredentialsBothOrNeither(volume: string, context: Context, json: Json)
    requires volume != "" && DiskOf(volume, context, json).Some?
    ensures
      var secret := SecretOf(context, json);
      var connector := BuildConnector(DiskOf(volume, context, json).value);
      && connector.Some?
      && (connector.value.sessionSecrets != NO_SECRETS <==> secret != map[])
      && (connector.value.discoverySecrets != NO_SECRETS <==> secret != map[])
      && (secret != map[] ==> HasCredentials(secret, SESSION_AUTH) && HasCredentials(secret, DISCOVERY_AUTH))
  {
  }

  // What a publish request says, spelt out

  /** The secret of the request, read with the given reader; text that cannot be read counts as none. */
  ghost function SecretIn(context: Context, json: Json): Context {
    match json.table(if "secret" in context then context["secret"] else "")
    case None => map[]
    case Some(secret) => secret
  }

  /** The requests that can be served: portal, IQN and a whole number as unit, a list of portals that can be read, and
      either no secret or all eight credentials in it. */
  ghost predicate Readable(context: Context, json: Json) {
    && "targetPortal" in context && context["targetPortal"] != ""
    && "iqn" in context && context["iqn"] != ""
    && "lun" in context && ParseInt64(context["lun"]).Some?
    && json.list(if "portals" in context then context["portals"] else "").Some?
    && (SecretIn(context, json) == map[] ||
        {"node.session.auth.username", "node.session.auth.password",
         "node.session.auth.username_in", "node.session.auth.password_in",
         "node.sendtargets.auth.username", "node.sendtargets.auth.password",
         "node.sendtargets.auth.username_in", "node.sendtargets.auth.password_in"} <= SecretIn(context, json).Keys)
  }

  /** A portal as it was given when there is a colon in it, and otherwise with the standard port. */
  ghost predicate PortalReads(portal: string, given: string) {
    if exists i :: 0 <= i < |given| && given[i] == ':' then portal == given else portal == given + ":3260"
  }

  /** An int32 for a number: that number if it fits, and otherwise its last 32 bits. */
  ghost predicate LunReads(lun: int, n: int) {
    && -0x8000_0000 <= lun < 0x8000_0000 && (n - lun) % 0x1_0000_0000 == 0
    && (-0x8000_0000 <= n < 0x8000_0000 ==> lun == n)
  }

  ghost predicate NoCredentials(c: Secrets) {
    c.kind == "" && c.userName == "" && c.password == "" && c.userNameIn == "" && c.passwordIn == ""
  }

  /** The connector says what the request says. */
  ghost predicate Says(connector: Connector, volume: string, context: Context, json: Json)
    requires Readable(context, json)
  {
    var list := json.list(if "portals" in context then context["portals"] else "").value;
    var secret, session, discovery := SecretIn(context, json), connector.sessionSecrets, connector.discoverySecrets;
    && connector.volumeName == volume && connector.iqn == context["iqn"] && connector.doDiscovery
    && LunReads(connector.lun, ParseInt64(context["lun"]).value)
    && |connector.portals| == 1 + |list| && PortalReads(connector.portals[0], context["targetPortal"])
    && (forall i | 0 <= i < |list| :: PortalReads(connector.portals[1 + i], list[i]))
    && (secret == map[] ==> NoCredentials(session) && NoCredentials(discovery))
    && (secret != map[] ==>
          && session.kind == "chap" && discovery.kind == "chap"
          && session.userName == secret["node.session.auth.username"]
          && session.password == secret["node.session.auth.password"]
          && session.userNameIn == secret["node.session.auth.username_in"]
          && session.passwordIn == secret["node.session.auth.password_in"]
          && discovery.userName == secret["node.sendtargets.auth.username"]
          && discovery.password == secret["node.sendtargets.auth.password"]
          && discovery.userNameIn == secret["node.sendtargets.auth.username_in"]
          && discovery.passwordIn == secret["node.sendtargets.auth.password_in"])
  }

  function ConnectorOf(volume: string, context: Context, json: Json): Option<Connector> {
    match DiskOf(volume, context, json)
    case None => None
    case Some(disk) => BuildConnector(disk)
  }

  /** Exactly the requests that can be served give a connector, and the connector says what the request says. */
  lemma ConnectorReads(volume: string, context: Context, json: Json)
    requires volume != ""
    ensures ConnectorOf(volume, context, json).Some? <==> Readable(context, json)
    ensures Readable(context, json) ==> Says(ConnectorOf(volume, context, json).value, volume, context, json)
  {
    hide ParseInt64, PortalMounter, Wrap32, Credentials, LunReads, PortalReads, NoCredentials;
    var secret := SecretIn(context, json);
    assert secret == SecretOf(context, json);
    ParseNothing();
    SessionReads(secret);
    DiscoveryReads(secret);
    if Readable(context, json) {
      var list := json.list(if "portals" in context then context["portals"] else "").value;
      WrapReads(ParseInt64(context["lun"]).value);
      PortalMounterReads(context["targetPortal"]);
      forall i | 0 <= i < |list| ensures PortalReads(PortalMounter(list[i]), list[i]) {
        PortalMounterReads(list[i]);
      }
    }
  }

  /** A unit written as a decimal int32 is the unit of the connector. */
  lemma UnitReads(volume: string, context: Context, json: Json, n: nat)
    requires volume != "" && Readable(context, json) && n < 0x8000_0000
    ensures ConnectorOf(volume, context, json).Some?
    ensures context["lun"] == ToDecimal(n) ==> ConnectorOf(volume, context, json).value.lun == n
    ensures context["lun"] == "-" + ToDecimal(n) ==> ConnectorOf(volume, context, json).value.lun == -(n as int)
  {
    hide ConnectorOf, ParseInt64;
    ConnectorReads(volume, context, json);
    DecimalRoundTrip(n);
  }

  lemma SessionReads(secret: Context)
    ensures
      var c := Credentials(secret, SESSION_AUTH);
      && (c.Some? <==>
            || secret == map[]
            || {"node.session.auth.username", "node.session.auth.password",
                "node.session.auth.username_in", "node.session.auth.password_in"} <= secret.Keys)
      && (c.Some? && secret == map[] ==> NoCredentials(c.value))
      && (c.Some? && secret != map[] ==>
            && c.value.kind == "chap"
            && c.value.userName == secret["node.session.auth.username"]
            && c.value.password == secret["node.session.auth.password"]
            && c.value.userNameIn == secret["node.session.auth.username_in"]
            && c.value.passwordIn == secret["node.session.auth.password_in"])
  {
    assert SESSION_AUTH + "username" == "node.session.auth.username";
    assert SESSION_AUTH + "password" == "node.session.auth.password";
    assert SESSION_AUTH + "username_in" == "node.session.auth.username_in";
    assert SESSION_AUTH + "password_in" == "node.session.auth.password_in";
  }

  lemma DiscoveryReads(secret: Context)
    ensures
      var c := Credentials(secret, DISCOVERY_AUTH);
      && (c.Some? <==>
            || secret == map[]
            || {"node.sendtargets.auth.username", "node.sendtargets.auth.password",
                "node.sendtargets.auth.username_in", "node.sendtargets.auth.password_in"} <= secret.Keys)
      && (c.Some? && secret == map[] ==> NoCredentials(c.value))
      && (c.Some? && secret != map[] ==>
            && c.value.kind == "chap"
            && c.value.userName == secret["node.sendtargets.auth.username"]
            && c.value.password == secret["node.sendtargets.auth.password"]
            && c.value.userNameIn == secret["node.sendtargets.auth.username_in"]
            && c.value.passwordIn == secret["node.sendtargets.auth.password_in"])
  {
    assert DISCOVERY_AUTH + "username" == "node.sendtargets.auth.username";
    assert DISCOVERY_AUTH + "password" == "node.sendtargets.auth.password";
    assert DISCOVERY_AUTH + "username_in" == "node.sendtargets.auth.username_in";
    assert DISCOVERY_AUTH + "password_in" == "node.sendtargets.auth.password_in";
  }

  lemma ParseNothing()
    ensures ParseInt64("").None?
  {
  }

  lemma PortalMounterReads(portal: string)
    ensures PortalReads(PortalMounter(portal), portal)
  {
  }

  lemma WrapReads(n: int)
    ensures LunReads(Wrap32(n), n)
  {
    var k := (n + 0x8000_0000) / 0x1_0000_0000;
    assert n - Wrap32(n) == k * 0x1_0000_0000;
  }

  /** A publish request up to the connector: refused as invalid when a key is missing, with an internal error when what
      the keys hold cannot be read, and otherwise turned into the connector it asks for. */
  method PublishConnector(volume: string, context: Context, json: Json) returns (r: Result<Connector, Status>)
    ensures r == Err(InvalidArgument) <==> volume == "" || !({"targetPortal", "iqn", "lun", "portals"} <= context.Keys)
    ensures r.Ok? <==>
      volume != "" && {"targetPortal", "iqn", "lun", "portals"} <= context.Keys && Readable(context, json)
    ensures r.Ok? ==> Says(r.value, volume, context, json)
    ensures r.Err? ==> r.error == InvalidArgument || r.error == Internal
  {
    hide Readable, Says, DiskOf, BuildConnector;
    if volume == "" {
      return Err(InvalidArgument);
    }
    ConnectorReads(volume, context, json);
    var complete := ContextComplete(context, ISCSI_KEYS);
    if !complete {
      return Err(InvalidArgument);
    }
    var disk := GetIscsiInfo(volume, context, json);
    if disk.None? {
      return Err(Internal);
    }
    ConnectorExists(volume, context, json);
    var connector := BuildIscsiConnector(disk.value);
    r := Ok(connector.value);
  }

  lemma PortalMounterTwice(portals: seq<string>)
    ensures PortalList(PortalList(portals)) == PortalList(portals)
    ensures forall p | p in PortalList(portals) :: ':' in p
  {
    forall i | 0 <= i < |portals| ensures ':' in PortalMounter(portals[i]) {
      if ':' !in portals[i] {
        assert PortalMounter(portals[i])[|portals[i]|] == ':';
      }
    }
  }

  /** A publish request that is read at all gives a connector: attach never meets a missing one. */
  lemma ConnectorExists(volume: string, context: Context, json: Json)
    requires volume != "" && DiskOf(volume, context, json).Some?
    ensures
      var connector := BuildConnector(DiskOf(volume, context, json).value);
      connector.Some? && connector.value.volumeName == volume && connector.value.iqn == context[KEY_IQN] &&
      connector.value.portals != [] && connector.value.portals[0] == PortalMounter(context[KEY_TARGET_PORTAL])
  {
  }

  /** Whatever create answers, the node turns into a connector with exactly that portal and IQN, and LUN 0. */
  lemma ControllerToNode(env: Env, v: string, s: State, response: Created, json: Json)
    requires AnswerReads(env, v, s, response) && v != "" && json.list("[]") == Some([]) && json.table("").None?
    ensures Readable(response.context, json)
    ensures ConnectorOf(response.volumeId, response.context, json) ==
      Some(Connector(v, s.basename + ":" + v, [response.context["targetPortal"]], 0, true, NO_SECRETS, NO_SECRETS))
    ensures AddressReads(response.context["targetPortal"], s.portals[env.portalId][0])
  {
    hide ConnectorOf, ToDecimal;
    var address := response.context["targetPortal"];
    assert address[|s.portals[env.portalId][0].ip|] == ':';
    assert response.context["iqn"][|s.basename|] == ':';
    UnitZero();
    ConnectorReads(v, response.context, json);
    var connector := ConnectorOf(v, response.context, json).value;
    assert connector.portals == [address];
  }

  lemma UnitZero()
    ensures ParseInt64("0") == Some(0)
  {
    DecimalRoundTrip(0);
    assert ToDecimal(0) == "0";
  }

  /** End to end, over any run: when create has answered, the node builds a connector from the answer. It goes to the
      address of the driver's portal and names, by its IQN, the one target that serves the volume's own zvol, at the
      connector's unit. */
  lemma EndToEnd(env: Env, volumes: set<string>, s0: State, events: seq<Event>, v: string,
                 json: Json)
    returns (connector: Connector, t: Target, e: Extent, d: Dataset)
    requires Vacant(env, volumes, s0) && v != "" && json.list("[]") == Some([]) && json.table("").None?
    requires v in Exec(env, volumes, System(s0, map[]), events).ops
    requires Exec(env, volumes, System(s0, map[]), events).ops[v].Finished?
    requires Exec(env, volumes, System(s0, map[]), events).ops[v].outcome.Provisioned?
    ensures
      var sys := Exec(env, volumes, System(s0, map[]), events);
      var s, response := sys.state, sys.ops[v].outcome.response;
      && ConnectorOf(response.volumeId, response.context, json) == Some(connector)
      && env.portalId in s.portals && s.portals[env.portalId] != [] && |connector.portals| == 1
      && AddressReads(connector.portals[0], s.portals[env.portalId][0])
      && connector.iqn == s.basename + ":" + v == s.basename + ":" + t.name && connector.lun == 0
      && LeadsTo(s, response, t, e, d) && d.name == env.storagePath + "/" + v
  {
    hide Exec, LeadsTo, ConnectorOf, AddressReads, Readable, Vacant;
    var sys := Exec(env, volumes, System(s0, map[]), events);
    var response := sys.ops[v].outcome.response;
    t, e, d := SuccessResolves(env, volumes, s0, events, v);
    SuccessAnswer(env, volumes, s0, events, v);
    ControllerToNode(env, v, sys.state, response, json);
    connector := ConnectorOf(response.volumeId, response.context, json).value;
    LedByIqn(env, v, sys.state, response, t, e, d);
  }

  lemma LedByIqn(env: Env, v: string, s: State, response: Created, t: Target, e: Extent, d: Dataset)
    requires LeadsTo(s, response, t, e, d) && AnswerReads(env, v, s, response)
    ensures s.basename + ":" + t.name == s.basename + ":" + v
  {
  }
}
