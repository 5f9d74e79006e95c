/** Players and what a `c:player_ping` body says about one. JSON text is taken as already parsed. */
module Players {
  import opened Common
  import CenterDiscovery

  datatype Kind = Host | Guest

  datatype PlayerInfo =
    PlayerInfo(name: string, machineId: string, easytierId: Option<string>, vendor: string, kind: Kind)

  /** A JSON value. Integers are those the parser keeps exact; other numbers carry their printed form. */
  datatype Json =
    | Null
    | Bool(b: bool)
    | Integer(n: int)
    | Float(printed: string)
    | Text(text: string)
    | Array(items: seq<Json>)
    | Object(fields: map<string, Json>)

  function Get(root: Json, key: string): Option<Json> {
    if root.Object? then Lookup(root.fields, key) else None
  }

  function PrintInteger(n: int): string {
    if n < 0 then "-" + CenterDiscovery.Decimal(-n) else CenterDiscovery.Decimal(n)
  }

  /** Lenient reading: strings and numbers become text, anything else nothing. */
  function ValueToString(v: Json): Option<string> {
    match v
    case Text(text) => Some(text)
    case Integer(n) => Some(PrintInteger(n))
    case Float(printed) => Some(printed)
    case _ => None
  }

  function TextOf(root: Json, key: string): Option<string> {
    match Get(root, key)
    case None => None
    case Some(v) => ValueToString(v)
  }

  /** The player a ping describes: missing or unreadable texts are empty. */
  function ParsePlayerInfo(root: Json): PlayerInfo {
    PlayerInfo(TextOf(root, "name").UnwrapOr(""), TextOf(root, "machine_id").UnwrapOr(""),
               TextOf(root, "easytier_id"), TextOf(root, "vendor").UnwrapOr(""), Host)
  }

  /** The machine id the connection task records after a ping: none at all when the field is missing. */
  function RecordedMachine(root: Json): Option<string> {
    match Get(root, "machine_id")
    case None => None
    case Some(v) => Some(ValueToString(v).UnwrapOr(""))
  }

  /** The roster and the registry read the same machine id out of a ping, with the empty text for none; the registry
      records one whenever there is such a field. */
  lemma RosterAndRegistryAgree(root: Json)
    ensures ParsePlayerInfo(root).machineId == RecordedMachine(root).UnwrapOr("")
    ensures ParsePlayerInfo(root).machineId != "" ==> RecordedMachine(root) == Some(ParsePlayerInfo(root).machineId)
    ensures RecordedMachine(root).Some? <==> root.Object? && "machine_id" in root.fields
  {
  }

  /** What a guest says about itself in a ping, with its node id if the EasyTier key is negotiated. */
  function GuestPing(name: string, machineId: string, vendor: string, nodeId: Option<string>): Json {
    Object(map["name" := Text(name), "machine_id" := Text(machineId), "vendor" := Text(vendor),
               "easytier_id" := if nodeId.Some? then Text(nodeId.value) else Null, "kind" := Null])
  }

  /** The center reads a guest's ping as the guest meant it, and both the roster and the registry its machine id. */
  lemma GuestPingIsRead(name: string, machineId: string, vendor: string, nodeId: Option<string>)
    ensures ParsePlayerInfo(GuestPing(name, machineId, vendor, nodeId)) ==
              PlayerInfo(name, machineId, nodeId, vendor, Host)
    ensures RecordedMachine(GuestPing(name, machineId, vendor, nodeId)) == Some(machineId)
  {
  }

  /** Numbers instead of texts are read as their decimal form, from which they can be read back; and distinct numbers
      stay distinct. */
  lemma NumbersAreRead(n: int)
    ensures n >= 0 ==>
              var text := ValueToString(Integer(n));
              text.Some? && CenterDiscovery.AllDigits(text.value) && CenterDiscovery.Number(text.value) == n
    ensures n < 0 ==>
              var text := ValueToString(Integer(n));
              && text.Some? && text.value != [] && text.value[0] == '-' && CenterDiscovery.AllDigits(text.value[1..])
              && CenterDiscovery.Number(text.value[1..]) == -n
  {
    CenterDiscovery.NumberOfDecimal(if n < 0 then -n else n);
  }

  /** Whatever a field holds, or if it is missing, a ping is read: what is neither text nor number counts as missing. */
  lemma UnreadableIsMissing(root: Json, key: string, v: Json)
    requires root.Object? && (v.Null? || v.Bool? || v.Array? || v.Object?)
    ensures ParsePlayerInfo(Object(root.fields[key := v])) == ParsePlayerInfo(Object(root.fields - {key}))
  {
    assert forall k :: k != key ==> Lookup(root.fields[key := v], k) == Lookup(root.fields - {key}, k);
  }
}
