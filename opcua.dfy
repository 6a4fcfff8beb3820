/**
 * The OPC UA client's record shaping: the node values read in one poll are
 * paired with their node ids, folded into one flat JavaScript object seeded
 * with the sample time and the vehicle identity, and then renamed and cast
 * key by key into the payload that is sent. JavaScript objects are modelled
 * as their own keys in insertion order plus a map from key to value; the
 * library functions the casters call (parseFloat, parseInt, number-to-text)
 * are parameters.
 */
module Opcua {
  import opened Wrappers
  import Replay

  // ---------------------------------------------------------------------
  // JavaScript values and plain objects
  // ---------------------------------------------------------------------

  /** A value stored in one of the objects built here: a number, NaN or a string. */
  datatype Prop = Number(x: real) | NaN | Text(s: string)

  /** A plain object: its own keys in insertion order and the value of each. */
  datatype JsObject = JsObject(keys: seq<string>, props: map<string, Prop>)

  /** The key list and the value map describe the same keys, each listed once. */
  ghost predicate WellFormed(o: JsObject)
  {
    && KeysPresent(o)
    && (forall k :: k in o.props ==> k in o.keys)
    && (forall i, j :: 0 <= i < j < |o.keys| ==> o.keys[i] != o.keys[j])
  }

  /** Every listed key has a value. */
  ghost predicate KeysPresent(o: JsObject)
  {
    forall i :: 0 <= i < |o.keys| ==> o.keys[i] in o.props
  }

  /** The object literal {}. */
  const Empty: JsObject := JsObject([], map[])

  /**
   * o[k] = v: a new key is appended to the key order, an existing key keeps
   * its place and takes the new value.
   */
  function Put(o: JsObject, k: string, v: Prop): (r: JsObject)
  {
    if k in o.props then JsObject(o.keys, o.props[k := v])
    else JsObject(o.keys + [k], o.props[k := v])
  }

  /** After o[k] = v the key holds v, every other key is unchanged, and k is listed last if it is new. */
  lemma PutSpec(o: JsObject, k: string, v: Prop)
    ensures Put(o, k, v).props == o.props[k := v]
    ensures k in o.props ==> Put(o, k, v).keys == o.keys
    ensures k !in o.props ==> Put(o, k, v).keys == o.keys + [k]
  {
  }

  /** Assignment keeps an object well formed. */
  lemma PutWellFormed(o: JsObject, k: string, v: Prop)
    requires WellFormed(o)
    ensures WellFormed(Put(o, k, v))
  {
  }

  /** JavaScript truthiness of a stored value: the empty string, 0 and NaN are falsy. */
  predicate Truthy(v: Prop)
  {
    match v
    case Number(x) => x != 0.0
    case NaN => false
    case Text(s) => s != ""
  }

  // ---------------------------------------------------------------------
  // zipArrays
  // ---------------------------------------------------------------------

  /**
   * zipArrays(a, b) = a.map((k, i) => [k, b[i]]): one pair per element of
   * a; b[i] reads undefined (None) past the end of b.
   */
  function ZipArrays<A, B>(a: seq<A>, b: seq<B>): (r: seq<(A, Option<B>)>)
    ensures |r| == |a|
    ensures forall i :: 0 <= i < |a| ==> r[i].0 == a[i]
    ensures forall i :: 0 <= i < |a| ==> r[i].1 == if i < |b| then Some(b[i]) else None
  {
    if a == [] then []
    else [(a[0], if 0 < |b| then Some(b[0]) else None)] + ZipArrays(a[1..], if 0 < |b| then b[1..] else [])
  }

  /** The first components of a sequence of pairs. */
  function Firsts<A, B>(ps: seq<(A, B)>): (r: seq<A>)
  {
    if ps == [] then [] else [ps[0].0] + Firsts(ps[1..])
  }

  /** The second components of a sequence of pairs, as far as they are defined. */
  function Seconds<A, B>(ps: seq<(A, Option<B>)>): (r: seq<B>)
  {
    if ps == [] || ps[0].1.None? then [] else [ps[0].1.value] + Seconds(ps[1..])
  }

  /**
   * Unzipping gives the arrays back: the first components are a, and the
   * second components are b cut to the length of a (all of b when the two
   * have the same length).
   */
  lemma {:induction false} UnzipZip<A, B>(a: seq<A>, b: seq<B>)
    ensures Firsts(ZipArrays(a, b)) == a
    ensures |b| >= |a| ==> Seconds(ZipArrays(a, b)) == b[..|a|]
    ensures |b| < |a| ==> Seconds(ZipArrays(a, b)) == b
  {
    FirstsOfZip(a, b);
    SecondsOfZip(a, b);
  }

  lemma {:induction false} FirstsOfZip<A, B>(a: seq<A>, b: seq<B>)
    ensures Firsts(ZipArrays(a, b)) == a
  {
    if a != [] {
      var rest := if 0 < |b| then b[1..] else [];
      FirstsOfZip(a[1..], rest);
      assert ZipArrays(a, b)[1..] == ZipArrays(a[1..], rest);
    }
  }

  lemma {:induction false} SecondsOfZip<A, B>(a: seq<A>, b: seq<B>)
    ensures |b| >= |a| ==> Seconds(ZipArrays(a, b)) == b[..|a|]
    ensures |b| < |a| ==> Seconds(ZipArrays(a, b)) == b
  {
    if |b| >= |a| {
      SecondsOfZipLong(a, b);
    } else {
      SecondsOfZipShort(a, b);
    }
  }

  lemma {:induction false} SecondsOfZipLong<A, B>(a: seq<A>, b: seq<B>)
    requires |b| >= |a|
    ensures Seconds(ZipArrays(a, b)) == b[..|a|]
  {
    if a != [] {
      SecondsOfZipLong(a[1..], b[1..]);
      assert ZipArrays(a, b)[1..] == ZipArrays(a[1..], b[1..]);
      assert b[..|a|] == [b[0]] + b[1..][..|a| - 1];
    }
  }

  lemma {:induction false} SecondsOfZipShort<A, B>(a: seq<A>, b: seq<B>)
    requires |b| < |a|
    ensures Seconds(ZipArrays(a, b)) == b
  {
    if b != [] {
      SecondsOfZipShort(a[1..], b[1..]);
      assert ZipArrays(a, b)[1..] == ZipArrays(a[1..], b[1..]);
      assert b == [b[0]] + b[1..];
    }
  }

  // ---------------------------------------------------------------------
  // parseResult
  // ---------------------------------------------------------------------

  /** The value of a node id: numeric or a string. */
  datatype NodeName = NumericId(n: nat) | StringId(s: string)

  /**
   * A value as read from the server: null, undefined, or a value whose
   * toString() yields a text (None when toString throws).
   */
  datatype JsValue = Null | Undefined | Defined(shown: Option<string>)

  /** A source timestamp: what getTime() and toISOString() return for it. */
  datatype Timestamp = Timestamp(time: int, iso: string)

  /** One element of the poll result: node name, value and source timestamp (null when absent). */
  datatype Entry = Entry(name: NodeName, value: JsValue, sourceTimestamp: Option<Timestamp>)

  /** Digit d as a character. */
  function Digit(d: nat): char
    requires d < 10
  {
    "0123456789"[d]
  }

  /** The decimal text of a number, as a numeric property name is written. */
  function Decimal(n: nat): (s: string)
    ensures |s| > 0 && forall i :: 0 <= i < |s| ==> '0' <= s[i] <= '9'
  {
    if n < 10 then [Digit(n)] else Decimal(n / 10) + [Digit(n % 10)]
  }

  /** The property key obj[entry.name] uses: a numeric name is converted to its decimal text. */
  function Key(name: NodeName): string
  {
    match name
    case NumericId(n) => Decimal(n)
    case StringId(s) => s
  }

  /** process.env.X || fallback: an unset or empty variable gives the fallback. */
  function EnvOr(env: Option<string>, fallback: string): (r: string)
    ensures env.Some? && env.value != "" ==> r == env.value
    ensures env.None? || env.value == "" ==> r == fallback
  {
    if env.Some? && env.value != "" then env.value else fallback
  }

  /** The default vehicle identity of this client. */
  const DefaultAgvId: string := "AGV_1"
  const DefaultAgvType: string := "v2"

  /** The vehicle identity the client stamps on every record, from AGV_ID and AGV_TYPE. */
  function AgvIdentity(agvIdEnv: Option<string>, agvTypeEnv: Option<string>): (r: (string, string))
    ensures agvIdEnv.None? || agvIdEnv.value == "" ==> r.0 == "AGV_1"
    ensures agvTypeEnv.None? || agvTypeEnv.value == "" ==> r.1 == "v2"
    ensures agvIdEnv.Some? && agvIdEnv.value != "" ==> r.0 == agvIdEnv.value
    ensures agvTypeEnv.Some? && agvTypeEnv.value != "" ==> r.1 == agvTypeEnv.value
  {
    (EnvOr(agvIdEnv, DefaultAgvId), EnvOr(agvTypeEnv, DefaultAgvType))
  }

  /** The ways parseResult throws: item[0] is undefined, or its sourceTimestamp is null. */
  datatype ParseError = NoFirstEntry | NoSourceTimestamp

  /** The object literal parseResult starts from. */
  function Seed(t: Timestamp, agvId: string, agvType: string): (o: JsObject)
    ensures WellFormed(o)
  {
    JsObject(["timestamp", "isoTimestamp", "agv_id", "agv_type"],
      map["timestamp" := Number(t.time as real), "isoTimestamp" := Text(t.iso),
          "agv_id" := Text(agvId), "agv_type" := Text(agvType)])
  }

  /** The entry is copied: its name is not the number 61 and its toString does not throw. */
  predicate Stores(e: Entry)
  {
    e.name != NumericId(61) && (e.value.Defined? ==> e.value.shown.Some?)
  }

  /** The text a copied entry stores: "null" for null or undefined, else value.toString(). */
  function StoredText(e: Entry): string
    requires Stores(e)
  {
    if e.value.Defined? then e.value.shown.value else "null"
  }

  /** One iteration of parseResult's loop. */
  function Store(o: JsObject, e: Entry): JsObject
  {
    if Stores(e) then Put(o, Key(e.name), Text(StoredText(e))) else o
  }

  /** The loop of parseResult run over the given entries, in order. */
  function StoreAll(o: JsObject, item: seq<Entry>): JsObject
  {
    if item == [] then o else Store(StoreAll(o, item[..|item| - 1]), item[|item| - 1])
  }

  /** The loop keeps the object well formed. */
  lemma {:induction false} StoreAllWellFormed(o: JsObject, item: seq<Entry>)
    requires WellFormed(o)
    ensures WellFormed(StoreAll(o, item))
  {
    if item != [] {
      StoreAllWellFormed(o, item[..|item| - 1]);
      var e := item[|item| - 1];
      if Stores(e) {
        PutWellFormed(StoreAll(o, item[..|item| - 1]), Key(e.name), Text(StoredText(e)));
      }
    }
  }

  /**
   * Reference meaning of the copy loop for one key: the text of the last
   * entry that is copied under that key, if any.
   */
  function LastStored(item: seq<Entry>, k: string): Option<string>
  {
    if item == [] then None
    else
      var e := item[|item| - 1];
      if Stores(e) && Key(e.name) == k then Some(StoredText(e)) else LastStored(item[..|item| - 1], k)
  }

  /**
   * After the loop a key is present when it was before or some entry is
   * copied under it; its value is the last such entry's text, or else the
   * value it had. The keys present before keep their places at the front.
   */
  lemma StoreAllSpec(o: JsObject, item: seq<Entry>)
    ensures |StoreAll(o, item).keys| >= |o.keys| && StoreAll(o, item).keys[..|o.keys|] == o.keys
    ensures forall k :: k in StoreAll(o, item).props <==> k in o.props || LastStored(item, k).Some?
    ensures forall k :: LastStored(item, k).Some? ==> StoreAll(o, item).props[k] == Text(LastStored(item, k).value)
    ensures forall k :: LastStored(item, k).None? && k in o.props ==> StoreAll(o, item).props[k] == o.props[k]
  {
    StoreAllKeepsOrder(o, item);
    StoreAllValues(o, item);
  }

  /** The keys present before the loop keep their places at the front. */
  lemma {:induction false} StoreAllKeepsOrder(o: JsObject, item: seq<Entry>)
    ensures |StoreAll(o, item).keys| >= |o.keys| && StoreAll(o, item).keys[..|o.keys|] == o.keys
  {
    if item != [] {
      StoreAllKeepsOrder(o, item[..|item| - 1]);
      var prev := StoreAll(o, item[..|item| - 1]);
      assert StoreAll(o, item).keys[..|prev.keys|] == prev.keys;
      assert prev.keys[..|o.keys|] == o.keys;
    }
  }

  /** Each key holds the last copied entry's text, or else the value it had. */
  lemma {:induction false} StoreAllValues(o: JsObject, item: seq<Entry>)
    ensures forall k :: k in StoreAll(o, item).props <==> k in o.props || LastStored(item, k).Some?
    ensures forall k :: LastStored(item, k).Some? ==> StoreAll(o, item).props[k] == Text(LastStored(item, k).value)
    ensures forall k :: LastStored(item, k).None? && k in o.props ==> StoreAll(o, item).props[k] == o.props[k]
  {
    if item != [] {
      StoreAllValues(o, item[..|item| - 1]);
    }
  }


  /**
   * parseResult: the object starts with timestamp and isoTimestamp of the
   * first entry's source time and the vehicle identity, then every entry
   * except the one named 61 is copied under its name, as "null" when its
   * value is null or undefined and as its text otherwise; an entry whose
   * toString throws is skipped. An empty poll, or a first entry without
   * source time, throws.
   */
  method ParseResult(item: seq<Entry>, agvId: string, agvType: string) returns (r: Result<JsObject, ParseError>)
    ensures item == [] ==> r == Err(NoFirstEntry)
    ensures item != [] && item[0].sourceTimestamp.None? ==> r == Err(NoSourceTimestamp)
    ensures r.Ok? <==> item != [] && item[0].sourceTimestamp.Some?
    ensures r.Ok? ==> r.value == StoreAll(Seed(item[0].sourceTimestamp.value, agvId, agvType), item)
    ensures r.Ok? ==> WellFormed(r.value) && |r.value.keys| >= 4 && r.value.keys[..4] == ["timestamp", "isoTimestamp", "agv_id", "agv_type"]
  {
    if item == [] {
      return Err(NoFirstEntry);
    }
    if item[0].sourceTimestamp.None? {
      return Err(NoSourceTimestamp);
    }
    var t := item[0].sourceTimestamp.value;
    var seed := Seed(t, agvId, agvType);
    var obj := seed;
    for i := 0 to |item|
      invariant obj == StoreAll(seed, item[..i])
    {
      assert item[..i + 1][..i] == item[..i];
      obj := Store(obj, item[i]);
    }
    assert item[..|item|] == item;
    StoreAllSpec(seed, item);
    StoreAllWellFormed(seed, item);
    r := Ok(obj);
  }

  /** The seed object: its four keys in order and their values. */
  lemma SeedSpec(t: Timestamp, agvId: string, agvType: string)
    ensures var o := Seed(t, agvId, agvType);
      && o.keys == ["timestamp", "isoTimestamp", "agv_id", "agv_type"]
      && o.props.Keys == {"timestamp", "isoTimestamp", "agv_id", "agv_type"}
      && o.props["timestamp"] == Number(t.time as real)
      && o.props["isoTimestamp"] == Text(t.iso)
      && o.props["agv_id"] == Text(agvId)
      && o.props["agv_type"] == Text(agvType)
  {
  }

  /**
   * What parseResult builds: the four seeded keys come first; a key holds
   * the text of the last entry copied under it, and a key no entry is
   * copied under is present only if seeded, with its seeded value.
   */
  lemma ParsedSpec(item: seq<Entry>, t: Timestamp, agvId: string, agvType: string)
    ensures var p := StoreAll(Seed(t, agvId, agvType), item);
      && WellFormed(p) && |p.keys| >= 4 && p.keys[..4] == ["timestamp", "isoTimestamp", "agv_id", "agv_type"]
      && (forall k :: LastStored(item, k).Some? ==> k in p.props && p.props[k] == Text(LastStored(item, k).value))
      && (forall k :: LastStored(item, k).None? ==> (k in p.props <==> k in {"timestamp", "isoTimestamp", "agv_id", "agv_type"}))
      && (LastStored(item, "timestamp").None? ==> "timestamp" in p.props && p.props["timestamp"] == Number(t.time as real))
      && (LastStored(item, "isoTimestamp").None? ==> "isoTimestamp" in p.props && p.props["isoTimestamp"] == Text(t.iso))
      && (LastStored(item, "agv_id").None? ==> "agv_id" in p.props && p.props["agv_id"] == Text(agvId))
      && (LastStored(item, "agv_type").None? ==> "agv_type" in p.props && p.props["agv_type"] == Text(agvType))
  {
    ParsedLayout(item, t, agvId, agvType);
    ParsedContents(item, t, agvId, agvType);
  }

  /** The parsed object is well formed and lists the seeded keys first. */
  lemma ParsedLayout(item: seq<Entry>, t: Timestamp, agvId: string, agvType: string)
    ensures var p := StoreAll(Seed(t, agvId, agvType), item);
      WellFormed(p) && |p.keys| >= 4 && p.keys[..4] == ["timestamp", "isoTimestamp", "agv_id", "agv_type"]
  {
    var seed := Seed(t, agvId, agvType);
    StoreAllKeepsOrder(seed, item);
    StoreAllWellFormed(seed, item);
  }

  /** The values of the parsed object, key by key. */
  lemma ParsedContents(item: seq<Entry>, t: Timestamp, agvId: string, agvType: string)
    ensures var p := StoreAll(Seed(t, agvId, agvType), item);
      && (forall k :: LastStored(item, k).Some? ==> k in p.props && p.props[k] == Text(LastStored(item, k).value))
      && (forall k :: LastStored(item, k).None? ==> (k in p.props <==> k in {"timestamp", "isoTimestamp", "agv_id", "agv_type"}))
      && (LastStored(item, "timestamp").None? ==> "timestamp" in p.props && p.props["timestamp"] == Number(t.time as real))
      && (LastStored(item, "isoTimestamp").None? ==> "isoTimestamp" in p.props && p.props["isoTimestamp"] == Text(t.iso))
      && (LastStored(item, "agv_id").None? ==> "agv_id" in p.props && p.props["agv_id"] == Text(agvId))
      && (LastStored(item, "agv_type").None? ==> "agv_type" in p.props && p.props["agv_type"] == Text(agvType))
  {
    var seed := Seed(t, agvId, agvType);
    var p := StoreAll(seed, item);
    SeedSpec(t, agvId, agvType);
    StoreAllValues(seed, item);
    forall k | LastStored(item, k).None?
      ensures k in p.props <==> k in {"timestamp", "isoTimestamp", "agv_id", "agv_type"}
    {
      assert k in p.props <==> k in seed.props.Keys;
    }
  }


  /**
   * Entries named 61 are never copied: a key that no other entry is copied
   * under is absent, or keeps its seeded value.
   */
  lemma {:induction false} Node61NeverCopied(item: seq<Entry>, k: string)
    requires forall i :: 0 <= i < |item| && Key(item[i].name) == k ==> item[i].name == NumericId(61)
    ensures LastStored(item, k).None?
  {
    if item != [] {
      Node61NeverCopied(item[..|item| - 1], k);
    }
  }

  /** A null or undefined value is stored as the text "null". */
  lemma NullStoredAsText(name: NodeName, v: JsValue, ts: Option<Timestamp>)
    requires name != NumericId(61) && (v == Null || v == Undefined)
    ensures LastStored([Entry(name, v, ts)], Key(name)) == Some("null")
  {
  }

  // ---------------------------------------------------------------------
  // boolToInt and the casting table
  // ---------------------------------------------------------------------

  /** boolToInt(value) = value ? 1 : 0, JavaScript truthiness. */
  function BoolToInt(v: Prop): (r: int)
    ensures r == 1 <==> Truthy(v)
    ensures r == 0 <==> !Truthy(v)
  {
    if Truthy(v) then 1 else 0
  }

  /**
   * On the texts parseResult stores only the empty text gives 0: "false",
   * "null" and "0" all give 1, unlike the replay script's rule, under which
   * only the exact text "true" gives 1.
   */
  lemma BoolToIntOnText(s: string)
    ensures BoolToInt(Text(s)) == 0 <==> s == ""
    ensures BoolToInt(Text("false")) == 1 && BoolToInt(Text("null")) == 1 && BoolToInt(Text("0")) == 1
    ensures BoolToInt(Text("")) == 0 && BoolToInt(Text("true")) == 1
    ensures Replay.BoolToInt("false") == 0 && Replay.BoolToInt("null") == 0 && Replay.BoolToInt("") == 0
  {
  }

  /** The functions castingMapping holds: String, parseFloat, parseInt and boolToInt. */
  datatype Caster = ToText | ParseFloat | ParseInt | BoolToIntCaster

  /**
   * The library behaviour the casters rely on: parseFloat and parseInt on a
   * text (None for NaN) and the text of a number.
   */
  datatype JsLib = JsLib(parseFloat: string -> Option<real>, parseInt: string -> Option<int>, numberText: real -> string)

  /** String(v). */
  function ToJsString(v: Prop, lib: JsLib): string
  {
    match v
    case Number(x) => lib.numberText(x)
    case NaN => "NaN"
    case Text(s) => s
  }

  /** castFunction(value) for a caster that exists; parseFloat and parseInt read String(value). */
  function ApplyCaster(c: Caster, v: Prop, lib: JsLib): Prop
  {
    match c
    case ToText => Text(ToJsString(v, lib))
    case ParseFloat => (match lib.parseFloat(ToJsString(v, lib)) case None => NaN case Some(x) => Number(x))
    case ParseInt => (match lib.parseInt(ToJsString(v, lib)) case None => NaN case Some(n) => Number(n as real))
    case BoolToIntCaster => Number(BoolToInt(v) as real)
  }

  /** COLUMNS_MAPPING[key]: the payload name of an OPC UA node (undefined, None, when it has none). */
  function ColumnsMapping(key: string): Option<string>
  {
    if key == "isoTimestamp" then Some("ts")
    else if |key| >= |NodePrefix| && key[..|NodePrefix|] == NodePrefix then SignalColumn(key[|NodePrefix|..])
    else None
  }

  /** The prefix every OPC UA signal name in COLUMNS_MAPPING starts with. */
  const NodePrefix: string := "FH.6000."

  /** COLUMNS_MAPPING on the signal names, given without their common prefix "FH.6000.". */
  function SignalColumn(signal: string): Option<string>
  {
    match signal
    case "[ENS] - Energy Signals.Momentary power consumption W" => Some("momentary_power_consumption")
    case "[ENS] - Energy Signals.Battery cell voltage" => Some("battery_cell_voltage")
    case "[G1LDS] GROUP 1 - LEFT DRIVE SIGNALS.Left drive activate - safety interlock" => Some("left_safety_interlock")
    case "[G1LDS] GROUP 1 - LEFT DRIVE SIGNALS.Left drive activate - automatic permission (#)" => Some("left_auto_permission")
    case "[G1LDS] GROUP 1 - LEFT DRIVE SIGNALS.Left drive activate - manual permission" => Some("left_manual_permission")
    case "[G1LDS] GROUP 1 - LEFT DRIVE SIGNALS.Left drive activate - command on" => Some("left_command_on")
    case "[G1LDS] GROUP 1 - LEFT DRIVE SIGNALS.Left drive activate - executed" => Some("left_executed")
    case "[G1LDS] GROUP 1 - LEFT DRIVE SIGNALS.Left drive activate - in progress (#)" => Some("left_in_progress")
    case "[G1LDS] GROUP 1 - LEFT DRIVE SIGNALS.ActualSpeed_L" => Some("left_actual_speed")
    case "[G2PAS] GROUP 2 - PIN ACTUATOR SIGNALS.Pin Up - safety interlock" => Some("pin_up_safety_interlock")
    case "[G2PAS] GROUP 2 - PIN ACTUATOR SIGNALS.Pin Up - automatic permission (#)" => Some("pin_up_auto_permission")
    case "[G2RDS] GROUP 2 - RIGHT DRIVE SIGNALS.Right drive activate - safety interlock" => Some("right_safety_interlock")
    case "[G2RDS] GROUP 2 - RIGHT DRIVE SIGNALS.Right drive activate - automatic permission (#)" => Some("right_auto_permission")
    case "[G2RDS] GROUP 2 - RIGHT DRIVE SIGNALS.Right drive activate - manual permission" => Some("right_manual_permission")
    case "[G2RDS] GROUP 2 - RIGHT DRIVE SIGNALS.Right drive activate - command on" => Some("right_command_on")
    case "[G2RDS] GROUP 2 - RIGHT DRIVE SIGNALS.ActualSpeed_R" => Some("right_actual_speed")
    case "[GS] GENERAL SIGNALS.Manual Mode active" => Some("manual_mode_active")
    case "[GS] GENERAL SIGNALS.Automatic Mode active" => Some("auto_mode_active")
    case "[GS] GENERAL SIGNALS.PLC fault active" => Some("plc_fault_active")
    case "[GS] GENERAL SIGNALS.PLC warning Active" => Some("plc_warning_active")
    case "[LED] LED STATUS.LED RGB Strip 1 (left) - Red" => Some("led_rgb_strip_1_left_r")
    case "[LED] LED STATUS.LED RGB Strip 2 (right) – Red" => Some("led_rgb_strip_2_right_r")
    case "[LED] LED STATUS.LED RGB Strip 1 (left) – Green" => Some("led_rgb_strip_1_left_g")
    case "[LED] LED STATUS.LED RGB Strip 2 (right) – Green" => Some("led_rgb_strip_2_right_g")
    case "[LED] LED STATUS.LED RGB Strip 1 (left) – Blue" => Some("led_rgb_strip_1_left_b")
    case "[LED] LED STATUS.LED RGB Strip 2 (right) – Blue" => Some("led_rgb_strip_2_right_b")
    case "[LED] LED STATUS.LED status - active mode" => Some("led_status_active_mode")
    case "[NNS] - Natural Navigation Signals.Natural Navigation status" => Some("natural_navigation_status")
    case "[NNS] - Natural Navigation Signals.Error status" => Some("error_status")
    case "[NNS] - Natural Navigation Signals.Natural Navigation state" => Some("natural_navigation_state")
    case "[NNS] - Natural Navigation Signals.X-coordinate" => Some("nn_x_coordinate")
    case "[NNS] - Natural Navigation Signals.Y-coordinate" => Some("nn_y_coordinate")
    case "[NNS] - Natural Navigation Signals.Heading" => Some("nn_heading")
    case "[NNS] - Natural Navigation Signals.Position confidence" => Some("nn_position_confidence")
    case "[NNS] - Natural Navigation Signals.Speed" => Some("nn_speed")
    case "[NNS] - Natural Navigation Signals.Going to ID" => Some("nn_going_to_id")
    case "[NNS] - Natural Navigation Signals.Target reached" => Some("nn_target_reached")
    case "[NNS] - Natural Navigation Signals.Current segment" => Some("nn_current_segment")
    case "[ODS] - Odometry Signals.Momentary frequency of left encoder pulses" => Some("momentary_freq_left_encoder")
    case "[ODS] - Odometry Signals.Momentary frequency of right encoder pulses" => Some("momentary_freq_right_encoder")
    case "[ODS] - Odometry Signals.Cumulative distance left" => Some("cumulative_distance_left")
    case "[ODS] - Odometry Signals.Cumulative distance right" => Some("cumulative_distance_right")
    case "[SS] SAFETY SIGNALS.Safety circuit closed" => Some("safety_circuit_closed")
    case "[SS] SAFETY SIGNALS.Scanners muted" => Some("scanners_muted")
    case "[NNS] - Natural Navigation Signals.Difference heading average correction" => Some("nn_diff_heading_avg_correction")
    case "[NNS] - Natural Navigation Signals.Distance average correction" => Some("nn_distance_avg_correction")
    case _ => None
  }

  /**
   * castingMapping[key]: the caster of a payload name (undefined, None, when it has none).
   * The names are grouped by their first character.
   */
  function CastingMapping(key: string): Option<Caster>
  {
    if key == [] then None
    else
      match key[0]
      case 't' =>
        (match key
          case "ts" => Some(ToText)
          case _ => None)
      case 'm' =>
        (match key
          case "momentary_power_consumption" => Some(ParseFloat)
          case "manual_mode_active" => Some(BoolToIntCaster)
          case "momentary_freq_left_encoder" => Some(ParseFloat)
          case "momentary_freq_right_encoder" => Some(ParseFloat)
          case _ => None)
      case 'b' =>
        (match key
          case "battery_cell_voltage" => Some(ParseFloat)
          case _ => None)
      case 'l' =>
        (match key
          case "left_safety_interlock" => Some(BoolToIntCaster)
          case "left_auto_permission" => Some(BoolToIntCaster)
          case "left_manual_permission" => Some(BoolToIntCaster)
          case "left_command_on" => Some(BoolToIntCaster)
          case "left_executed" => Some(BoolToIntCaster)
          case "left_in_progress" => Some(BoolToIntCaster)
          case "left_actual_speed" => Some(ParseFloat)
          case "led_rgb_strip_1_left_r" => Some(BoolToIntCaster)
          case "led_rgb_strip_2_right_r" => Some(BoolToIntCaster)
          case "led_rgb_strip_1_left_g" => Some(BoolToIntCaster)
          case "led_rgb_strip_2_right_g" => Some(BoolToIntCaster)
          case "led_rgb_strip_1_left_b" => Some(BoolToIntCaster)
          case "led_rgb_strip_2_right_b" => Some(BoolToIntCaster)
          case "led_status_active_mode" => Some(BoolToIntCaster)
          case _ => None)
      case 'p' =>
        (match key
          case "pin_up_safety_interlock" => Some(BoolToIntCaster)
          case "pin_up_auto_permission" => Some(BoolToIntCaster)
          case "plc_fault_active" => Some(BoolToIntCaster)
          case "plc_warning_active" => Some(BoolToIntCaster)
          case "pause_result" => Some(ParseInt)
          case _ => None)
      case 'r' =>
        (match key
          case "right_safety_interlock" => Some(BoolToIntCaster)
          case "right_auto_permission" => Some(BoolToIntCaster)
          case "right_manual_permission" => Some(BoolToIntCaster)
          case "right_command_on" => Some(BoolToIntCaster)
          case "right_actual_speed" => Some(ParseFloat)
          case "resume_destination_id" => Some(ParseInt)
          case "resume_result" => Some(ParseInt)
          case "rear_scanner_safety_zone_violated" => Some(BoolToIntCaster)
          case "rear_scanner_warning_zone_violated" => Some(BoolToIntCaster)
          case _ => None)
      case 'a' =>
        (match key
          case "auto_mode_active" => Some(BoolToIntCaster)
          case "abort_result" => Some(ParseInt)
          case _ => None)
      case 'g' =>
        (match key
          case "go_to_destination_id" => Some(ParseInt)
          case "go_to_result" => Some(ParseInt)
          case _ => None)
      case 'n' =>
        (match key
          case "natural_navigation_status" => Some(BoolToIntCaster)
          case "natural_navigation_state" => Some(ParseInt)
          case "nn_x_coordinate" => Some(ParseFloat)
          case "nn_y_coordinate" => Some(ParseFloat)
          case "nn_heading" => Some(ParseFloat)
          case "nn_position_confidence" => Some(ParseFloat)
          case "nn_speed" => Some(ParseFloat)
          case "nn_going_to_id" => Some(ParseInt)
          case "nn_target_reached" => Some(ParseInt)
          case "nn_current_segment" => Some(ParseInt)
          case "nn_diff_heading_avg_correction" => Some(ParseFloat)
          case "nn_distance_avg_correction" => Some(ParseFloat)
          case _ => None)
      case 'e' =>
        (match key
          case "error_status" => Some(BoolToIntCaster)
          case _ => None)
      case 'c' =>
        (match key
          case "cumulative_distance_left" => Some(ParseFloat)
          case "cumulative_distance_right" => Some(ParseFloat)
          case _ => None)
      case 's' =>
        (match key
          case "safety_circuit_closed" => Some(BoolToIntCaster)
          case "scanners_muted" => Some(BoolToIntCaster)
          case "scanners_active_zones" => Some(ParseFloat)
          case _ => None)
      case 'f' =>
        (match key
          case "front_bumper_triggered" => Some(BoolToIntCaster)
          case "front_scanner_safety_zone_violated" => Some(BoolToIntCaster)
          case "front_scanner_warning_zone_violated" => Some(BoolToIntCaster)
          case _ => None)
      case _ => None
  }

  /** The two lookup tables mapResult consults: COLUMNS_MAPPING and castingMapping. */
  datatype Tables = Tables(columns: string -> Option<string>, casters: string -> Option<Caster>)

  /** The tables of this client. */
  function SourceTables(): Tables
  {
    Tables(ColumnsMapping, CastingMapping)
  }

  /** The name COLUMNS_MAPPING[key] || key: the mapped name when there is a non-empty one, else the key itself. */
  function NewKey(t: Tables, key: string): string
  {
    match t.columns(key)
    case Some(t) => if t != "" then t else key
    case None => key
  }

  /** The keys of the seed object are not renamed, and none of them has a caster; isoTimestamp becomes ts, a text. */
  lemma SeedKeysWithoutCaster()
    ensures NewKey(SourceTables(), "timestamp") == "timestamp" && CastingMapping("timestamp").None?
    ensures NewKey(SourceTables(), "agv_id") == "agv_id" && CastingMapping("agv_id").None?
    ensures NewKey(SourceTables(), "agv_type") == "agv_type" && CastingMapping("agv_type").None?
    ensures NewKey(SourceTables(), "isoTimestamp") == "ts" && CastingMapping("ts") == Some(ToText)
  {
    NotRenamed("timestamp");
    NotRenamed("agv_id");
    NotRenamed("agv_type");
    NoCasterForTimestamp();
    NoCasterForAgvId();
    NoCasterForAgvType();
    TsCastToText();
  }

  /** A key that is not isoTimestamp and does not start like a node name keeps its name. */
  lemma NotRenamed(key: string)
    requires key != "isoTimestamp" && |key| > 0 && key[0] != NodePrefix[0]
    ensures ColumnsMapping(key).None? && NewKey(SourceTables(), key) == key
  {
    assert |key| >= |NodePrefix| ==> key[..|NodePrefix|][0] != NodePrefix[0];
  }

  lemma NoCasterForTimestamp()
    ensures CastingMapping("timestamp").None?
  {
  }

  lemma NoCasterForAgvId()
    ensures CastingMapping("agv_id").None?
  {
  }

  lemma NoCasterForAgvType()
    ensures CastingMapping("agv_type").None?
  {
  }

  lemma TsCastToText()
    ensures ColumnsMapping("isoTimestamp") == Some("ts") && CastingMapping("ts") == Some(ToText)
  {
  }

  /** mapResult throws TypeError when castingMapping holds no function for the new key. */
  datatype MapError = NotAFunction(key: string)

  /** The loop of mapResult over the first n keys of result, in key order. */
  function MapEntries(result: JsObject, t: Tables, lib: JsLib, n: nat): (r: Result<JsObject, MapError>)
    requires KeysPresent(result) && n <= |result.keys|
  {
    if n == 0 then Ok(Empty)
    else
      match MapEntries(result, t, lib, n - 1)
      case Err(e) => Err(e)
      case Ok(mapped) =>
        var key := result.keys[n - 1];
        var newKey := NewKey(t, key);
        match t.casters(newKey)
        case None => Err(NotAFunction(newKey))
        case Some(c) => Ok(Put(mapped, newKey, ApplyCaster(c, result.props[key], lib)))
  }

  /** Every key among the first n, once renamed, has a caster. */
  predicate AllCastable(result: JsObject, t: Tables, n: nat)
    requires n <= |result.keys|
  {
    forall i :: 0 <= i < n ==> t.casters(NewKey(t, result.keys[i])).Some?
  }

  /** Key i is the last of the first n keys to be renamed to its new name. */
  predicate LastOfName(result: JsObject, t: Tables, n: nat, i: nat)
    requires i < n <= |result.keys|
  {
    forall j :: i < j < n ==> NewKey(t, result.keys[j]) != NewKey(t, result.keys[i])
  }

  /** The names the first n keys are renamed to. */
  function NewNames(result: JsObject, t: Tables, n: nat): set<string>
    requires n <= |result.keys|
  {
    set i | 0 <= i < n :: NewKey(t, result.keys[i])
  }

  /** The names of n + 1 keys are those of n keys and the new name of key n. */
  lemma NewNamesStep(result: JsObject, t: Tables, n: nat)
    requires n < |result.keys|
    ensures NewNames(result, t, n + 1) == NewNames(result, t, n) + {NewKey(t, result.keys[n])}
  {
    assert forall k :: k in NewNames(result, t, n + 1) ==> k in NewNames(result, t, n) + {NewKey(t, result.keys[n])};
  }

  /**
   * The loop succeeds exactly when every key has a caster after renaming,
   * and otherwise fails on the first key that has none. On success the
   * result holds exactly the new names, and each holds the cast value of
   * the last key renamed to it.
   */
  lemma MapEntriesSpec(result: JsObject, t: Tables, lib: JsLib, n: nat)
    requires KeysPresent(result) && n <= |result.keys|
    ensures MapEntries(result, t, lib, n).Ok? <==> AllCastable(result, t, n)
    ensures MapEntries(result, t, lib, n).Err? ==>
      exists i :: 0 <= i < n && AllCastable(result, t, i) && t.casters(NewKey(t, result.keys[i])).None? &&
        MapEntries(result, t, lib, n).error == NotAFunction(NewKey(t, result.keys[i]))
    ensures MapEntries(result, t, lib, n).Ok? ==> MapEntries(result, t, lib, n).value.props.Keys == NewNames(result, t, n)
    ensures MapEntries(result, t, lib, n).Ok? ==>
      forall i :: 0 <= i < n && LastOfName(result, t, n, i) ==>
        var newKey := NewKey(t, result.keys[i]);
        MapEntries(result, t, lib, n).value.props[newKey] ==
          ApplyCaster(t.casters(newKey).value, result.props[result.keys[i]], lib)
  {
    MapEntriesOutcome(result, t, lib, n);
    if AllCastable(result, t, n) {
      MapEntriesContents(result, t, lib, n);
    }
  }

  lemma {:induction false} MapEntriesOutcome(result: JsObject, t: Tables, lib: JsLib, n: nat)
    requires KeysPresent(result) && n <= |result.keys|
    ensures MapEntries(result, t, lib, n).Ok? <==> AllCastable(result, t, n)
    ensures MapEntries(result, t, lib, n).Err? ==>
      exists i :: 0 <= i < n && AllCastable(result, t, i) && t.casters(NewKey(t, result.keys[i])).None? &&
        MapEntries(result, t, lib, n).error == NotAFunction(NewKey(t, result.keys[i]))
  {
    if n > 0 {
      MapEntriesOutcome(result, t, lib, n - 1);
      var prev := MapEntries(result, t, lib, n - 1);
      var nk := NewKey(t, result.keys[n - 1]);
      if prev.Err? {
        var i :| 0 <= i < n - 1 && AllCastable(result, t, i) && t.casters(NewKey(t, result.keys[i])).None? &&
          prev.error == NotAFunction(NewKey(t, result.keys[i]));
        assert !AllCastable(result, t, n);
      } else if t.casters(nk).None? {
        assert !AllCastable(result, t, n);
        assert MapEntries(result, t, lib, n).error == NotAFunction(nk);
      }
    }
  }

  lemma MapEntriesContents(result: JsObject, t: Tables, lib: JsLib, n: nat)
    requires KeysPresent(result) && n <= |result.keys| && AllCastable(result, t, n)
    ensures MapEntries(result, t, lib, n).Ok?
    ensures MapEntries(result, t, lib, n).value.props.Keys == NewNames(result, t, n)
    ensures forall i :: 0 <= i < n && LastOfName(result, t, n, i) ==>
      var newKey := NewKey(t, result.keys[i]);
      MapEntries(result, t, lib, n).value.props[newKey] ==
        ApplyCaster(t.casters(newKey).value, result.props[result.keys[i]], lib)
  {
    CastableAgrees(result, t, lib, n);
    MapEntriesCorrectedContents(result, t, lib, n);
    forall i | 0 <= i < n && LastOfName(result, t, n, i)
      ensures t.casters(NewKey(t, result.keys[i])).Some?
    {
    }
  }

  /** When every key has a caster, mapResult succeeds with the corrected mapping. */
  lemma {:induction false} CastableAgrees(result: JsObject, t: Tables, lib: JsLib, n: nat)
    requires KeysPresent(result) && n <= |result.keys| && AllCastable(result, t, n)
    ensures MapEntries(result, t, lib, n) == Ok(MapEntriesCorrected(result, t, lib, n))
  {
    if n > 0 {
      assert AllCastable(result, t, n - 1);
      CastableAgrees(result, t, lib, n - 1);
      var key := result.keys[n - 1];
      var nk := NewKey(t, key);
      assert t.casters(nk).Some?;
      assert CastOrKeep(t, lib, nk, result.props[key]) == ApplyCaster(t.casters(nk).value, result.props[key], lib);
    }
  }

  /**
   * mapResult: each key is renamed through COLUMNS_MAPPING (kept when it
   * has no entry there) and its value is put through the caster of the new
   * name; a name without caster throws.
   */
  method MapResult(result: JsObject, t: Tables, lib: JsLib) returns (r: Result<JsObject, MapError>)
    requires KeysPresent(result)
    ensures r == MapEntries(result, t, lib, |result.keys|)
    ensures r.Ok? <==> AllCastable(result, t, |result.keys|)
  {
    var mappedData := Empty;
    for i := 0 to |result.keys|
      invariant MapEntries(result, t, lib, i) == Ok(mappedData)
    {
      var key := result.keys[i];
      var newKey := NewKey(t, key);
      var castFunction := t.casters(newKey);
      MapEntriesStep(result, t, lib, i, mappedData);
      if castFunction.None? {
        r := Err(NotAFunction(newKey));
        PrefixFails(result, t, lib, i + 1, |result.keys|);
        MapEntriesOutcome(result, t, lib, |result.keys|);
        return;
      }
      mappedData := Put(mappedData, newKey, ApplyCaster(castFunction.value, result.props[key], lib));
    }
    r := Ok(mappedData);
    MapEntriesOutcome(result, t, lib, |result.keys|);
  }

  /** The outcome of the loop and, on success, the names it holds. */
  lemma MapEntriesShape(result: JsObject, t: Tables, lib: JsLib, n: nat)
    requires KeysPresent(result) && n <= |result.keys|
    ensures MapEntries(result, t, lib, n).Ok? <==> AllCastable(result, t, n)
    ensures MapEntries(result, t, lib, n).Err? ==>
      exists i :: 0 <= i < n && AllCastable(result, t, i) && t.casters(NewKey(t, result.keys[i])).None? &&
        MapEntries(result, t, lib, n).error == NotAFunction(NewKey(t, result.keys[i]))
    ensures MapEntries(result, t, lib, n).Ok? ==> MapEntries(result, t, lib, n).value.props.Keys == NewNames(result, t, n)
  {
    MapEntriesOutcome(result, t, lib, n);
    if AllCastable(result, t, n) {
      CastableAgrees(result, t, lib, n);
      MapEntriesCorrectedKeys(result, t, lib, n);
    }
  }

  /** One more key: a failure on the new name, or the cast value put under it. */
  lemma MapEntriesStep(result: JsObject, t: Tables, lib: JsLib, i: nat, mapped: JsObject)
    requires KeysPresent(result) && i < |result.keys| && MapEntries(result, t, lib, i) == Ok(mapped)
    ensures var key := result.keys[i];
      var newKey := NewKey(t, key);
      MapEntries(result, t, lib, i + 1) ==
        if t.casters(newKey).None? then Err(NotAFunction(newKey))
        else Ok(Put(mapped, newKey, ApplyCaster(t.casters(newKey).value, result.props[key], lib)))
  {
  }

  /**
   * The loop over all keys of a well-formed object succeeds exactly when
   * every key has a caster after renaming, and then holds every new name.
   */
  lemma MappedOutcome(result: JsObject, t: Tables, lib: JsLib)
    requires WellFormed(result)
    ensures var r := MapEntries(result, t, lib, |result.keys|);
      && (r.Ok? <==> forall k :: k in result.props ==> t.casters(NewKey(t, k)).Some?)
      && (r.Ok? ==> forall k :: k in result.props ==> NewKey(t, k) in r.value.props)
      && (r.Ok? ==> WellFormed(r.value))
  {
    var n := |result.keys|;
    MapEntriesShape(result, t, lib, n);
    AllCastableIff(result, t);
    if MapEntries(result, t, lib, n).Ok? {
      CastableAgrees(result, t, lib, n);
      CorrectedWellFormed(result, t, lib, n);
      forall k | k in result.props
        ensures NewKey(t, k) in MapEntries(result, t, lib, n).value.props
      {
        var i :| 0 <= i < n && result.keys[i] == k;
        assert NewKey(t, result.keys[i]) in NewNames(result, t, n);
      }
    }
  }

  /** Every key of a well-formed object is castable exactly when every listed key is. */
  lemma AllCastableIff(result: JsObject, t: Tables)
    requires WellFormed(result)
    ensures AllCastable(result, t, |result.keys|) <==> forall k :: k in result.props ==> t.casters(NewKey(t, k)).Some?
  {
    if AllCastable(result, t, |result.keys|) {
      forall k | k in result.props
        ensures t.casters(NewKey(t, k)).Some?
      {
        var i :| 0 <= i < |result.keys| && result.keys[i] == k;
      }
    }
  }

  /** Once the loop has failed it stays failed with the same error. */
  lemma {:induction false} PrefixFails(result: JsObject, t: Tables, lib: JsLib, m: nat, n: nat)
    requires KeysPresent(result) && m <= n <= |result.keys|
    requires MapEntries(result, t, lib, m).Err?
    ensures MapEntries(result, t, lib, n) == MapEntries(result, t, lib, m)
  {
    if m < n {
      PrefixFails(result, t, lib, m, n - 1);
    }
  }

  /**
   * As written, mapResult cannot succeed on anything parseResult returns:
   * the seeded key timestamp comes first, keeps its name and has no caster,
   * so castFunction is undefined and calling it throws a TypeError.
   */
  lemma MapResultOfParsedThrows(item: seq<Entry>, agvId: string, agvType: string, lib: JsLib)
    requires item != [] && item[0].sourceTimestamp.Some?
    ensures
      var parsed := StoreAll(Seed(item[0].sourceTimestamp.value, agvId, agvType), item);
      KeysPresent(parsed) && MapEntries(parsed, SourceTables(), lib, |parsed.keys|) == Err(NotAFunction("timestamp"))
  {
    var t := SourceTables();
    var seed := Seed(item[0].sourceTimestamp.value, agvId, agvType);
    var parsed := StoreAll(seed, item);
    StoreAllSpec(seed, item);
    StoreAllWellFormed(seed, item);
    assert parsed.keys[0] == seed.keys[0] == "timestamp";
    SeedKeysWithoutCaster();
    assert MapEntries(parsed, t, lib, 1) == Err(NotAFunction("timestamp"));
    PrefixFails(parsed, t, lib, 1, |parsed.keys|);
  }

  /**
   * mapResult as evidently intended: a name without caster keeps its value
   * unchanged instead of throwing.
   */
  function MapEntriesCorrected(result: JsObject, t: Tables, lib: JsLib, n: nat): (r: JsObject)
    requires KeysPresent(result) && n <= |result.keys|
  {
    if n == 0 then Empty
    else
      var key := result.keys[n - 1];
      var newKey := NewKey(t, key);
      Put(MapEntriesCorrected(result, t, lib, n - 1), newKey, CastOrKeep(t, lib, newKey, result.props[key]))
  }

  /** The value the corrected mapping stores under a new name: cast when the name has a caster, else unchanged. */
  function CastOrKeep(t: Tables, lib: JsLib, newKey: string, v: Prop): Prop
  {
    match t.casters(newKey)
    case None => v
    case Some(c) => ApplyCaster(c, v, lib)
  }

  /** The corrected mapResult on a whole object. */
  function MapResultCorrected(result: JsObject, t: Tables, lib: JsLib): (r: JsObject)
    requires KeysPresent(result)
  {
    MapEntriesCorrected(result, t, lib, |result.keys|)
  }

  /**
   * The corrected mapping holds exactly the new names; each holds the value
   * of the last key renamed to it, cast when its name has a caster and
   * unchanged otherwise. It agrees with mapResult wherever mapResult
   * succeeds.
   */
  lemma MapEntriesCorrectedSpec(result: JsObject, t: Tables, lib: JsLib, n: nat)
    requires KeysPresent(result) && n <= |result.keys|
    ensures MapEntriesCorrected(result, t, lib, n).props.Keys == NewNames(result, t, n)
    ensures forall i :: 0 <= i < n && LastOfName(result, t, n, i) ==>
      var newKey := NewKey(t, result.keys[i]);
      MapEntriesCorrected(result, t, lib, n).props[newKey] == CastOrKeep(t, lib, newKey, result.props[result.keys[i]])
    ensures MapEntries(result, t, lib, n).Ok? ==> MapEntries(result, t, lib, n).value == MapEntriesCorrected(result, t, lib, n)
  {
    MapEntriesCorrectedContents(result, t, lib, n);
    CorrectedAgrees(result, t, lib, n);
  }

  lemma MapEntriesCorrectedContents(result: JsObject, t: Tables, lib: JsLib, n: nat)
    requires KeysPresent(result) && n <= |result.keys|
    ensures MapEntriesCorrected(result, t, lib, n).props.Keys == NewNames(result, t, n)
    ensures forall i :: 0 <= i < n && LastOfName(result, t, n, i) ==>
      var newKey := NewKey(t, result.keys[i]);
      MapEntriesCorrected(result, t, lib, n).props[newKey] == CastOrKeep(t, lib, newKey, result.props[result.keys[i]])
  {
    MapEntriesCorrectedKeys(result, t, lib, n);
    forall i | 0 <= i < n && LastOfName(result, t, n, i)
      ensures var newKey := NewKey(t, result.keys[i]);
        newKey in MapEntriesCorrected(result, t, lib, n).props &&
        MapEntriesCorrected(result, t, lib, n).props[newKey] == CastOrKeep(t, lib, newKey, result.props[result.keys[i]])
    {
      CorrectedValueAt(result, t, lib, n, i);
    }
  }

  /** The value under the new name of key i, when no later key among the first n takes that name. */
  lemma {:induction false} CorrectedValueAt(result: JsObject, t: Tables, lib: JsLib, n: nat, i: nat)
    requires KeysPresent(result) && i < n <= |result.keys| && LastOfName(result, t, n, i)
    ensures var newKey := NewKey(t, result.keys[i]);
      newKey in MapEntriesCorrected(result, t, lib, n).props &&
      MapEntriesCorrected(result, t, lib, n).props[newKey] == CastOrKeep(t, lib, newKey, result.props[result.keys[i]])
  {
    if i < n - 1 {
      assert NewKey(t, result.keys[n - 1]) != NewKey(t, result.keys[i]);
      assert LastOfName(result, t, n - 1, i);
      CorrectedValueAt(result, t, lib, n - 1, i);
    }
  }

  /** The corrected mapping is a well-formed object. */
  lemma {:induction false} CorrectedWellFormed(result: JsObject, t: Tables, lib: JsLib, n: nat)
    requires KeysPresent(result) && n <= |result.keys|
    ensures WellFormed(MapEntriesCorrected(result, t, lib, n))
  {
    if n > 0 {
      CorrectedWellFormed(result, t, lib, n - 1);
      var key := result.keys[n - 1];
      var newKey := NewKey(t, key);
      PutWellFormed(MapEntriesCorrected(result, t, lib, n - 1), newKey, CastOrKeep(t, lib, newKey, result.props[key]));
    }
  }

  /** The corrected mapping holds exactly the new names of the first n keys. */
  lemma {:induction false} MapEntriesCorrectedKeys(result: JsObject, t: Tables, lib: JsLib, n: nat)
    requires KeysPresent(result) && n <= |result.keys|
    ensures MapEntriesCorrected(result, t, lib, n).props.Keys == NewNames(result, t, n)
  {
    if n > 0 {
      MapEntriesCorrectedKeys(result, t, lib, n - 1);
      NewNamesStep(result, t, n - 1);
      var prev := MapEntriesCorrected(result, t, lib, n - 1);
      var key := result.keys[n - 1];
      var newKey := NewKey(t, key);
      var v := CastOrKeep(t, lib, newKey, result.props[key]);
      assert MapEntriesCorrected(result, t, lib, n).props == prev.props[newKey := v];
      assert prev.props[newKey := v].Keys == prev.props.Keys + {newKey};
    }
  }

  lemma {:induction false} CorrectedAgrees(result: JsObject, t: Tables, lib: JsLib, n: nat)
    requires KeysPresent(result) && n <= |result.keys|
    ensures MapEntries(result, t, lib, n).Ok? ==> MapEntries(result, t, lib, n).value == MapEntriesCorrected(result, t, lib, n)
  {
    if n > 0 {
      CorrectedAgrees(result, t, lib, n - 1);
    }
  }

  /**
   * The intended end-to-end shaping of one poll: unless some node is itself
   * copied under one of the names timestamp, agv_id, agv_type or ts, the
   * payload carries the source time, the vehicle identity and the ISO time
   * under ts.
   */
  lemma CorrectedPayloadKeepsEnvelope(item: seq<Entry>, agvId: string, agvType: string, lib: JsLib)
    requires item != [] && item[0].sourceTimestamp.Some?
    requires forall k :: LastStored(item, k).Some? ==> NewKey(SourceTables(), k) !in {"timestamp", "agv_id", "agv_type", "ts"}
    ensures
      var time := item[0].sourceTimestamp.value;
      var parsed := StoreAll(Seed(time, agvId, agvType), item);
      KeysPresent(parsed) &&
      var out := MapResultCorrected(parsed, SourceTables(), lib);
      && "timestamp" in out.props && out.props["timestamp"] == Number(time.time as real)
      && "agv_id" in out.props && out.props["agv_id"] == Text(agvId)
      && "agv_type" in out.props && out.props["agv_type"] == Text(agvType)
      && "ts" in out.props && out.props["ts"] == Text(time.iso)
  {
    SeedKeysWithoutCaster();
    EnvelopeKept(item, agvId, agvType, lib, SourceTables());
  }

  /** CorrectedPayloadKeepsEnvelope for any tables that treat the seeded keys as this client's do. */
  lemma EnvelopeKept(item: seq<Entry>, agvId: string, agvType: string, lib: JsLib, t: Tables)
    requires item != [] && item[0].sourceTimestamp.Some?
    requires NewKey(t, "timestamp") == "timestamp" && t.casters("timestamp").None?
    requires NewKey(t, "agv_id") == "agv_id" && t.casters("agv_id").None?
    requires NewKey(t, "agv_type") == "agv_type" && t.casters("agv_type").None?
    requires NewKey(t, "isoTimestamp") == "ts" && t.casters("ts") == Some(ToText)
    requires forall k :: LastStored(item, k).Some? ==> NewKey(t, k) !in {"timestamp", "agv_id", "agv_type", "ts"}
    ensures
      var time := item[0].sourceTimestamp.value;
      var parsed := StoreAll(Seed(time, agvId, agvType), item);
      KeysPresent(parsed) &&
      var out := MapResultCorrected(parsed, t, lib);
      && "timestamp" in out.props && out.props["timestamp"] == Number(time.time as real)
      && "agv_id" in out.props && out.props["agv_id"] == Text(agvId)
      && "agv_type" in out.props && out.props["agv_type"] == Text(agvType)
      && "ts" in out.props && out.props["ts"] == Text(time.iso)
  {
    var time := item[0].sourceTimestamp.value;
    var parsed := StoreAll(Seed(time, agvId, agvType), item);
    ParsedFront(item, time, agvId, agvType, t);
    LaterKeysRenamedElsewhere(item, parsed, t);
    FrontKeysLastOfName(parsed, t);
    CorrectedAt(parsed, t, lib, 0);
    CorrectedAt(parsed, t, lib, 1);
    CorrectedAt(parsed, t, lib, 2);
    CorrectedAt(parsed, t, lib, 3);
  }

  /** Under the hypothesis no entry overwrites a seeded key, so they keep their place and value. */
  lemma ParsedFront(item: seq<Entry>, time: Timestamp, agvId: string, agvType: string, t: Tables)
    requires NewKey(t, "timestamp") == "timestamp" && NewKey(t, "agv_id") == "agv_id"
    requires NewKey(t, "agv_type") == "agv_type" && NewKey(t, "isoTimestamp") == "ts"
    requires forall k :: LastStored(item, k).Some? ==> NewKey(t, k) !in {"timestamp", "agv_id", "agv_type", "ts"}
    ensures var p := StoreAll(Seed(time, agvId, agvType), item);
      && WellFormed(p) && |p.keys| >= 4 && p.keys[..4] == ["timestamp", "isoTimestamp", "agv_id", "agv_type"]
      && p.keys[0] == "timestamp" && p.keys[1] == "isoTimestamp" && p.keys[2] == "agv_id" && p.keys[3] == "agv_type"
      && (forall k :: LastStored(item, k).None? ==> (k in p.props <==> k in {"timestamp", "isoTimestamp", "agv_id", "agv_type"}))
      && p.props["timestamp"] == Number(time.time as real) && p.props["isoTimestamp"] == Text(time.iso)
      && p.props["agv_id"] == Text(agvId) && p.props["agv_type"] == Text(agvType)
  {
    var p := StoreAll(Seed(time, agvId, agvType), item);
    ParsedSpec(item, time, agvId, agvType);
    assert LastStored(item, "timestamp").None?;
    assert LastStored(item, "isoTimestamp").None?;
    assert LastStored(item, "agv_id").None?;
    assert LastStored(item, "agv_type").None?;
    assert p.keys[0] == p.keys[..4][0] && p.keys[1] == p.keys[..4][1];
    assert p.keys[2] == p.keys[..4][2] && p.keys[3] == p.keys[..4][3];
  }

  /** The corrected mapping at the new name of a key that is the last renamed to it. */
  lemma CorrectedAt(result: JsObject, t: Tables, lib: JsLib, i: nat)
    requires KeysPresent(result) && i < |result.keys| && LastOfName(result, t, |result.keys|, i)
    ensures var newKey := NewKey(t, result.keys[i]);
      var v := result.props[result.keys[i]];
      && newKey in MapResultCorrected(result, t, lib).props
      && MapResultCorrected(result, t, lib).props[newKey] ==
           match t.casters(newKey) case None => v case Some(c) => ApplyCaster(c, v, lib)
  {
    MapEntriesCorrectedSpec(result, t, lib, |result.keys|);
    assert NewKey(t, result.keys[i]) in NewNames(result, t, |result.keys|);
  }


  /** The four seeded keys are each the last key renamed to their new name. */
  lemma FrontKeysLastOfName(parsed: JsObject, t: Tables)
    requires |parsed.keys| >= 4
    requires parsed.keys[0] == "timestamp" && parsed.keys[1] == "isoTimestamp"
    requires parsed.keys[2] == "agv_id" && parsed.keys[3] == "agv_type"
    requires NewKey(t, "timestamp") == "timestamp" && NewKey(t, "isoTimestamp") == "ts"
    requires NewKey(t, "agv_id") == "agv_id" && NewKey(t, "agv_type") == "agv_type"
    requires forall j :: 4 <= j < |parsed.keys| ==> NewKey(t, parsed.keys[j]) !in {"timestamp", "agv_id", "agv_type", "ts"}
    ensures forall i :: 0 <= i < 4 ==> LastOfName(parsed, t, |parsed.keys|, i)
  {
    forall i, j | 0 <= i < 4 && i < j < |parsed.keys|
      ensures NewKey(t, parsed.keys[j]) != NewKey(t, parsed.keys[i])
    {
      if j >= 4 {
        assert NewKey(t, parsed.keys[j]) !in {"timestamp", "agv_id", "agv_type", "ts"};
      }
    }
  }


  /**
   * In a parsed object, every key after the four seeded ones was copied
   * from an entry, so under the hypothesis it is renamed away from the
   * envelope names.
   */
  lemma LaterKeysRenamedElsewhere(item: seq<Entry>, parsed: JsObject, t: Tables)
    requires WellFormed(parsed) && |parsed.keys| >= 4 && parsed.keys[..4] == ["timestamp", "isoTimestamp", "agv_id", "agv_type"]
    requires forall k :: LastStored(item, k).None? ==> (k in parsed.props <==> k in {"timestamp", "isoTimestamp", "agv_id", "agv_type"})
    requires forall k :: LastStored(item, k).Some? ==> NewKey(t, k) !in {"timestamp", "agv_id", "agv_type", "ts"}
    ensures forall j :: 4 <= j < |parsed.keys| ==> NewKey(t, parsed.keys[j]) !in {"timestamp", "agv_id", "agv_type", "ts"}
  {
    assert parsed.keys[0] == parsed.keys[..4][0] && parsed.keys[1] == parsed.keys[..4][1];
    assert parsed.keys[2] == parsed.keys[..4][2] && parsed.keys[3] == parsed.keys[..4][3];
    forall j | 4 <= j < |parsed.keys|
      ensures NewKey(t, parsed.keys[j]) !in {"timestamp", "agv_id", "agv_type", "ts"}
    {
      var k := parsed.keys[j];
      assert k in parsed.props;
      assert k != parsed.keys[0] && k != parsed.keys[1] && k != parsed.keys[2] && k != parsed.keys[3];
      if LastStored(item, k).None? {
        assert false;
      }
    }
  }

}
