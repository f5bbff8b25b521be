/**
 * The DNS lookup page: the `formattedData` normalisation of the route's JSON into a `DnsResponse`, the
 * `hostname`/`data`/`loading`/`error` state with its submit and reset handlers, and the empty-list checks
 * of the record lists.
 *
 * The normalisation follows JavaScript's behaviour on whatever JSON value arrives: `.map` and `.flat` work on
 * arrays only and throw a TypeError on anything else, `.length` is also read from strings, and a value is
 * tested for truthiness. A TypeError aborts the whole formatting.
 */
module DnsLookup {
  import opened Wrappers
  import opened Json

  /** `DnsRecord`: every field optional; `None` is `undefined`. */
  datatype DnsRecord = DnsRecord(
    address: Option<Json>,
    ttl: Option<Json>,
    exchange: Option<Json>,
    priority: Option<Json>,
    nameserver: Option<Json>,
    hostmaster: Option<Json>)

  const NoFields := DnsRecord(None, None, None, None, None, None)

  /** `DnsResponse.records`: six kinds; there is no AAAA. */
  datatype Records = Records(
    a: seq<DnsRecord>,
    cname: seq<DnsRecord>,
    mx: seq<DnsRecord>,
    ns: seq<DnsRecord>,
    soa: seq<DnsRecord>,
    txt: seq<Json>)

  datatype DnsResponse = DnsResponse(query: string, records: Records)

  /** The TypeErrors the normalisation can throw. */
  datatype Fault =
    | ReadOfNullish(receiver: string, property: string)  // reading a property of undefined or null
    | NotAFunction(callee: string)                       // calling `.map`/`.flat` on a non-array

  /** The error's message, in V8's wording. */
  function Message(f: Fault): string {
    match f
    case ReadOfNullish(receiver, property) =>
      "Cannot read properties of " + receiver + " (reading '" + property + "')"
    case NotAFunction(callee) => callee + " is not a function"
  }

  /** JavaScript truthiness of a possibly undefined value. */
  predicate Truthy(v: Option<Json>) {
    match v
    case None => false
    case Some(JNull) => false
    case Some(JBool(b)) => b
    case Some(JNum(n)) => n != 0
    case Some(JStr(s)) => s != ""
    case Some(JArr(_)) => true
    case Some(JObj(_)) => true
  }

  /** `v.name` for a value that is neither undefined nor null. */
  function Prop(v: Json, name: string): Option<Json> {
    if v.JObj? && name in v.fields then Some(v.fields[name]) else None
  }

  /** `v.name`, throwing on undefined and null. */
  function Member(v: Option<Json>, name: string): (r: Result<Option<Json>, Fault>)
    ensures r.Failure? <==> v == None || v == Some(JNull)
    ensures r.Success? ==> r.value == Prop(v.value, name)
  {
    match v
    case None => Failure(ReadOfNullish("undefined", name))
    case Some(JNull) => Failure(ReadOfNullish("null", name))
    case Some(j) => Success(Prop(j, name))
  }

  /** The receiver of `expr.method(...)` where `arrayMethod` is an array method: its items when it is an array. */
  function ArrayItems(v: Option<Json>, expr: string, arrayMethod: string): (r: Result<seq<Json>, Fault>)
    ensures r.Success? <==> v.Some? && v.value.JArr?
    ensures r.Success? ==> r.value == v.value.items
  {
    match v
    case None => Failure(ReadOfNullish("undefined", arrayMethod))
    case Some(JNull) => Failure(ReadOfNullish("null", arrayMethod))
    case Some(JArr(items)) => Success(items)
    case Some(_) => Failure(NotAFunction(expr + "." + arrayMethod))
  }

  /** `ip => ({ address: ip })` mapped over the A answers. */
  function AddressRecords(ips: seq<Json>): (r: seq<DnsRecord>)
    ensures |r| == |ips|
    ensures forall i :: 0 <= i < |ips| ==> r[i] == NoFields.(address := Some(ips[i]))
  {
    if ips == [] then [] else [NoFields.(address := Some(ips[0]))] + AddressRecords(ips[1..])
  }

  /** `ns => ({ nameserver: ns })` mapped over the NS answers. */
  function NameserverRecords(names: seq<Json>): (r: seq<DnsRecord>)
    ensures |r| == |names|
    ensures forall i :: 0 <= i < |names| ==> r[i] == NoFields.(nameserver := Some(names[i]))
  {
    if names == [] then [] else [NoFields.(nameserver := Some(names[0]))] + NameserverRecords(names[1..])
  }

  /** The record the MX callback builds from one item. */
  function MxRecordOf(item: Json): DnsRecord {
    NoFields.(exchange := Prop(item, "exchange"), priority := Prop(item, "priority"))
  }

  /** The MX callback mapped over the items; a null item throws when its `exchange` is read (any other
      item has both properties read, undefined unless it is an object that has them). */
  function MxRecords(items: seq<Json>): (r: Result<seq<DnsRecord>, Fault>)
    ensures r.Success? <==> JNull !in items
    ensures r.Failure? ==> r.error == ReadOfNullish("null", "exchange")
    ensures r.Success? ==> |r.value| == |items|
    ensures r.Success? ==> forall i :: 0 <= i < |items| ==> r.value[i] == MxRecordOf(items[i])
  {
    if items == [] then Success([])
    else
    if items[0] == JNull then Failure(ReadOfNullish("null", "exchange"))
    else
      var rest :- MxRecords(items[1..]);
      assert items == [items[0]] + items[1..];
      Success([MxRecordOf(items[0])] + rest)
  }

  /** `v.length === 0` for a value that is neither undefined nor null. */
  predicate LengthIsZero(v: Json) {
    match v
    case JArr(items) => |items| == 0
    case JStr(s) => |s| == 0
    case JObj(f) => "length" in f && f["length"] == JNum(0)
    case _ => false
  }

  /** `CNAME.length === 0 ? [] : [{ address: CNAME }]`: the whole value becomes one record's address. */
  function CnameRecords(v: Option<Json>): (r: Result<seq<DnsRecord>, Fault>)
    ensures r.Failure? <==> v == None || v == Some(JNull)
    ensures r.Failure? ==> r.error.ReadOfNullish? && r.error.property == "length"
    ensures r.Success? ==> (r.value == [] <==> LengthIsZero(v.value))
    ensures r.Success? && r.value != [] ==> r.value == [NoFields.(address := v)]
  {
    match v
    case None => Failure(ReadOfNullish("undefined", "length"))
    case Some(JNull) => Failure(ReadOfNullish("null", "length"))
    case Some(j) => if LengthIsZero(j) then Success([]) else Success([NoFields.(address := v)])
  }

  /** `SOA ? [{ nameserver: SOA.nsname, hostmaster: SOA.hostmaster }] : []`. */
  function SoaRecords(v: Option<Json>): (r: seq<DnsRecord>)
    ensures r == [] <==> !Truthy(v)
    ensures |r| <= 1
    ensures r != [] ==>
      r[0] == NoFields.(nameserver := Prop(v.value, "nsname"), hostmaster := Prop(v.value, "hostmaster"))
  {
    if Truthy(v) then [NoFields.(nameserver := Prop(v.value, "nsname"), hostmaster := Prop(v.value, "hostmaster"))]
    else []
  }

  /** `Array.prototype.flat()` with depth one: array items are spliced in, other items kept. */
  function Flat(items: seq<Json>): (r: seq<Json>)
    ensures (forall i :: 0 <= i < |items| ==> !items[i].JArr?) ==> r == items
  {
    if items == [] then []
    else (if items[0].JArr? then items[0].items else [items[0]]) + Flat(items[1..])
  }

  /** Flattening distributes over concatenation. */
  lemma {:induction false} FlatAppend(a: seq<Json>, b: seq<Json>)
    ensures Flat(a + b) == Flat(a) + Flat(b)
  {
    if a == [] {
      assert a + b == b;
    } else {
      assert (a + b)[0] == a[0];
      assert (a + b)[1..] == a[1..] + b;
      FlatAppend(a[1..], b);
    }
  }

  /** A flattened list of strings is flat: flattening it again changes nothing. */
  lemma FlatOfStrings(ss: seq<string>)
    ensures Flat(Strs(ss)) == Strs(ss)
  {
  }

  /** The TXT entry's one-level flattening of arrays of strings is their concatenation. */
  lemma {:induction false} FlatOfStringArrays(items: seq<Json>, parts: seq<seq<string>>)
    requires |items| == |parts|
    requires forall i :: 0 <= i < |items| ==> items[i] == JArr(Strs(parts[i]))
    ensures Flat(items) == Strs(Concat(parts))
    ensures |Flat(items)| == TotalLength(parts)
  {
    if items != [] {
      FlatOfStringArrays(items[1..], parts[1..]);
      StrsAppend(parts[0], Concat(parts[1..]));
    }
  }

  function Concat(parts: seq<seq<string>>): (r: seq<string>)
    ensures |r| == TotalLength(parts)
  {
    if parts == [] then [] else parts[0] + Concat(parts[1..])
  }

  function TotalLength(parts: seq<seq<string>>): nat {
    if parts == [] then 0 else |parts[0]| + TotalLength(parts[1..])
  }

  /** `formattedData`: the fields are built in the order A, CNAME, MX, NS, SOA, TXT, and the first TypeError
      aborts the whole value. */
  function Format(query: string, raw: Json): (r: Result<DnsResponse, Fault>)
    ensures raw == JNull ==> r == Failure(ReadOfNullish("null", "A"))
    ensures r.Success? ==> r.value.query == query
    ensures r.Success? <==>
      && raw.JObj?
      && ArrayItems(Prop(raw, "A"), "rawData.A", "map").Success?
      && CnameRecords(Prop(raw, "CNAME")).Success?
      && ArrayItems(Prop(raw, "MX"), "rawData.MX", "map").Success?
      && JNull !in Prop(raw, "MX").value.items
      && ArrayItems(Prop(raw, "NS"), "rawData.NS", "map").Success?
      && ArrayItems(Prop(raw, "TXT"), "rawData.TXT", "flat").Success?
    ensures r.Success? ==> r.value.records == Records(
      AddressRecords(Prop(raw, "A").value.items),
      CnameRecords(Prop(raw, "CNAME")).value,
      MxRecords(Prop(raw, "MX").value.items).value,
      NameserverRecords(Prop(raw, "NS").value.items),
      SoaRecords(Prop(raw, "SOA")),
      Flat(Prop(raw, "TXT").value.items))
  {
    // reading `rawData.A` throws on a null body; once past it, `rawData` is known not to be null
    var a :- Member(Some(raw), "A");
    var aItems :- ArrayItems(a, "rawData.A", "map");
    var cnameRecords :- CnameRecords(Prop(raw, "CNAME"));
    var mxItems :- ArrayItems(Prop(raw, "MX"), "rawData.MX", "map");
    var mxRecords :- MxRecords(mxItems);
    var nsItems :- ArrayItems(Prop(raw, "NS"), "rawData.NS", "map");
    var txtItems :- ArrayItems(Prop(raw, "TXT"), "rawData.TXT", "flat");
    Success(DnsResponse(query, Records(
      AddressRecords(aItems), cnameRecords, mxRecords, NameserverRecords(nsItems),
      SoaRecords(Prop(raw, "SOA")), Flat(txtItems))))
  }

  /** The AAAA entry never reaches the page's state: formatting ignores it. */
  lemma AaaaIgnored(query: string, fields: map<string, Json>, v: Json)
    ensures Format(query, JObj(fields["AAAA" := v])) == Format(query, JObj(fields))
  {
  }

  const FetchFailed := "Failed to fetch DNS data"
  const GenericError := "An error occurred"

  /** A thrown value: an `Error` with its message, or something else. */
  datatype Thrown = ErrorObject(message: string) | NonError

  /** What `res.json()` settles to. */
  datatype Body = Parsed(json: Json) | Unparsable(thrown: Thrown)

  /** What `await fetch(...)` settles to. */
  datatype FetchOutcome = Rejected(thrown: Thrown) | Received(status: int, body: Body)

  /** `res.ok`. */
  predicate ResponseOk(status: int) {
    200 <= status <= 299
  }

  /** The catch clause's message. */
  function CaughtMessage(t: Thrown): string {
    match t
    case ErrorObject(m) => m
    case NonError => GenericError
  }

  /** The URL the submit handler fetches; the hostname is put in as it is, without encoding. */
  function RequestUrl(hostname: string): string {
    "/api/dns-lookup?domain=" + hostname
  }

  /** How a submit ends: the formatted data, or the message for the error slot. */
  datatype Settled = Loaded(response: DnsResponse) | Failed(message: string)

  /** The `try`/`catch` body of `handleSubmit` after the fetch has settled. */
  function Settle(query: string, outcome: FetchOutcome): (s: Settled)
    ensures outcome.Rejected? ==> s == Failed(CaughtMessage(outcome.thrown))
    ensures outcome.Received? && !ResponseOk(outcome.status) ==> s == Failed(FetchFailed)
    ensures outcome.Received? && ResponseOk(outcome.status) && outcome.body.Unparsable? ==>
      s == Failed(CaughtMessage(outcome.body.thrown))
    ensures s.Loaded? <==>
      outcome.Received? && ResponseOk(outcome.status) && outcome.body.Parsed? &&
      Format(query, outcome.body.json).Success?
    ensures s.Loaded? ==> s.response.query == query && s.response == Format(query, outcome.body.json).value
    ensures (outcome.Received? && ResponseOk(outcome.status) && outcome.body.Parsed? &&
             Format(query, outcome.body.json).Failure?) ==>
      s == Failed(Message(Format(query, outcome.body.json).error))
  {
    match outcome
    case Rejected(t) => Failed(CaughtMessage(t))
    case Received(status, body) =>
      if !ResponseOk(status) then Failed(FetchFailed)
      else match body
        case Unparsable(t) => Failed(CaughtMessage(t))
        case Parsed(json) =>
          match Format(query, json)
          case Success(r) => Loaded(r)
          case Failure(f) => Failed(Message(f))
  }

  /** The `DnsLookup` component's four state slots. */
  class DnsLookupForm {
    var hostname: string
    var data: Option<DnsResponse>
    var loading: bool
    var error: Option<string>

    /** Data and error are never shown together, and neither is shown while a lookup is in flight. */
    ghost predicate Valid()
      reads this
    {
      (data.None? || error.None?) && (loading ==> data.None? && error.None?)
    }

    /** The initial state of the four slots. */
    constructor ()
      ensures Valid()
      ensures hostname == "" && data == None && !loading && error == None
    {
      hostname := "";
      data := None;
      loading := false;
      error := None;
    }

    /** The input's `onChange`. */
    method SetHostname(value: string)
      requires Valid()
      modifies this
      ensures Valid()
      ensures hostname == value
      ensures data == old(data) && loading == old(loading) && error == old(error)
    {
      hostname := value;
    }

    /** The synchronous start of `handleSubmit`: it clears the slots, raises `loading`, and returns the hostname
        it captured and the URL it fetches. */
    method StartSubmit() returns (query: string, url: string)
      modifies this
      ensures Valid()
      ensures loading && data == None && error == None && hostname == old(hostname)
      ensures query == hostname && url == RequestUrl(hostname)
    {
      loading := true;
      error := None;
      data := None;
      query := hostname;
      url := RequestUrl(hostname);
    }

    /** The rest of `handleSubmit`, once the fetch has settled: it sets either the data or the error, and
        always lowers `loading` (the `finally` clause). */
    method FinishSubmit(query: string, outcome: FetchOutcome)
      requires Valid() && loading
      modifies this
      ensures Valid()
      ensures !loading && hostname == old(hostname)
      ensures Settle(query, outcome).Loaded? ==> data == Some(Settle(query, outcome).response) && error == None
      ensures Settle(query, outcome).Failed? ==> error == Some(Settle(query, outcome).message) && data == None
    {
      match Settle(query, outcome) {
        case Loaded(r) => data := Some(r);
        case Failed(m) => error := Some(m);
      }
      loading := false;
    }

    /** A whole submit with nothing happening while the fetch is in flight. */
    method HandleSubmit(outcome: FetchOutcome) returns (url: string)
      modifies this
      ensures Valid()
      ensures !loading && hostname == old(hostname) && url == RequestUrl(old(hostname))
      ensures Settle(old(hostname), outcome).Loaded? ==>
        data == Some(Settle(old(hostname), outcome).response) && error == None
      ensures Settle(old(hostname), outcome).Failed? ==>
        error == Some(Settle(old(hostname), outcome).message) && data == None
    {
      var query;
      query, url := StartSubmit();
      FinishSubmit(query, outcome);
    }

    /** `handleReset`: it clears the hostname, the data and the error, and leaves `loading` as it is. */
    method HandleReset()
      requires Valid()
      modifies this
      ensures Valid()
      ensures hostname == "" && data == None && error == None && loading == old(loading)
    {
      hostname := "";
      data := None;
      error := None;
    }
  }

  /** What a record list shows: its placeholder text, or the list itself. */
  datatype ListView<T> = Placeholder(text: string) | Listing(items: seq<T>)

  /** `RecordList`: the placeholder exactly when there are no records. */
  function RecordList(records: seq<DnsRecord>, recordType: string): (v: ListView<DnsRecord>)
    ensures v.Placeholder? <==> |records| == 0
    ensures v.Placeholder? ==> v.text == "No " + recordType + " records found."
    ensures v.Listing? ==> v.items == records
  {
    if |records| == 0 then Placeholder("No " + recordType + " records found.") else Listing(records)
  }

  /** `TxtRecordList`: `records.length` is truthy exactly when the list is not empty. */
  function TxtRecordList(records: seq<Json>): (v: ListView<Json>)
    ensures v.Placeholder? <==> |records| == 0
    ensures v.Placeholder? ==> v.text == "No TXT records found."
    ensures v.Listing? ==> v.items == records
  {
    if Truthy(Some(JNum(|records|))) then Listing(records) else Placeholder("No TXT records found.")
  }
}
